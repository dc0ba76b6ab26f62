/** `update` of controller.c on the accepting side: the manager, the stack of identifiers and the
    pump working together, proved against one step of a host. */
module Updates {
  import opened Basics
  import opened Ring
  import opened RoundBuffers
  import opened Connections
  import opened Receiver
  import opened Scheduling
  import opened Slots
  import opened Protocol
  import opened Identifiers
  import opened Grammar
  import H = Host
  import M = Managers
  import C = Controllers
  import P = Pumps

  /** How an update ends. `Strayed` is where the program leaves what is modelled: the target of the
      message under way is gone, the decoder runs past its data, the process exits over a wrong
      head, or the peer sends what a server never sends. */
  datatype Course = Finished | Stopped | Strayed

  /** The connections show the values of the table, seen by the manager and by the controller. */
  lemma ManagerToController(m: M.ConnectionManager, cs: seq<Connection>, t: seq<Slot>)
    requires m.Shows(cs, t)
    ensures C.Shows(cs, H.Conns(t)) && Separate(cs) && m.count == |cs| == |t| && m.Valid()
    ensures m.Holds(cs, t, 0, m.count)
  {
    assert forall i, j :: 0 <= i < j < |cs| ==> cs[i] != cs[j];
  }

  lemma ControllerToManager(m: M.ConnectionManager, cs: seq<Connection>, t: seq<Slot>, conns: seq<Conn>)
    requires C.Shows(cs, conns) && Separate(cs) && m.Valid() && m.count == |cs| == |t| == |conns|
    requires m.Holds(cs, t, 0, m.count)
    ensures m.Shows(cs, H.WithConns(t, conns))
  {
  }

  /** The places of a table whose entries lead to different connections. */
  lemma TableSeparate(table: array<Connection?>, cs: seq<Connection>, conns: seq<Conn>, index: map<int, nat>)
    requires C.Indexes(table, cs, index) && Separate(cs) && |cs| == |conns| && IndexOk(conns, index)
    ensures Separate(table[..])
  {
    var s := table[..];
    forall i, j | 0 <= i < j < |s| && s[i] != null && s[j] != null
      ensures s[i] != s[j] && Disjoint(s[i], s[j])
    {
      assert i in index && j in index && index[i] != index[j];
      if index[i] < index[j] {
        assert Disjoint(cs[index[i]], cs[index[j]]);
      } else {
        assert Disjoint(cs[index[j]], cs[index[i]]);
      }
    }
  }

  ghost predicate BuffersOk(cs: seq<Connection>)
    reads set i | 0 <= i < |cs| :: cs[i].inBuf
    reads set i | 0 <= i < |cs| :: cs[i].inBuf.buffer
    reads set i | 0 <= i < |cs| :: cs[i].outBuf
    reads set i | 0 <= i < |cs| :: cs[i].outBuf.buffer
  {
    forall i :: 0 <= i < |cs| ==> cs[i].inBuf.Valid() && cs[i].outBuf.Valid()
  }

  lemma StackFacts(h: H.Host)
    requires H.NamesOk(h)
    ensures forall id :: id in h.free ==> 0 <= id < MAX_CONNECTIONS
    ensures forall i :: 0 <= i < |h.table| ==> H.Conns(h.table)[i].id != MAX_CONNECTIONS
  {
    forall id | id in h.free
      ensures 0 <= id < MAX_CONNECTIONS
    {
      var i :| 0 <= i < |h.free| && h.free[i] == id;
      assert Assigned(h.free, H.Conns(h.table), h.free[i]);
      FreeIsUnheld(h.free, H.Conns(h.table), i);
    }
    assert forall i :: 0 <= i < |h.table| ==> WellNamed(H.Conns(h.table)[i]);
  }

  lemma TunnelAt(table: array<Connection?>, cs: seq<Connection>, index: map<int, nat>)
    requires C.Indexes(table, cs, index)
    ensures table.Length == MAX_CONNECTIONS && (table[0] == null <==> 0 !in index)
  {
  }

  lemma WithOwn(t: seq<Slot>)
    ensures H.WithConns(t, H.Conns(t)) == t
  {
  }

  // ---------------------------------------------------------------- the table of the pump

  /** What place `id` of the table of the pump shows. */
  lemma TabView(table: array<Connection?>, cs: seq<Connection>, conns: seq<Conn>, index: map<int, nat>, id: int)
    requires C.Indexes(table, cs, index) && C.Shows(cs, conns) && 0 <= id < MAX_CONNECTIONS
    ensures table.Length == MAX_CONNECTIONS && |cs| == |conns| && (table[id] != null <==> id in index)
    ensures id in index ==>
      index[id] < |cs| && table[id] == cs[index[id]] && table[id].View() == conns[index[id]]
  {
    if id in index {
      assert cs[index[id]].View() == conns[index[id]];
    }
  }

  lemma HearingMirrors(table: array<Connection?>, cs: seq<Connection>, h: H.Host, index: map<int, nat>)
    requires C.Indexes(table, cs, index) && C.Shows(cs, H.Conns(h.table))
    requires H.Usable(H.Conns(h.table), index)
    ensures table.Length == MAX_CONNECTIONS && table[0] != null
    ensures P.Mirrors(table[..], H.Hearing(h, index))
  {
    hide C.Indexes, C.Shows;
    var tab, conns := table[..], H.Conns(h.table);
    TabView(table, cs, conns, index, 0);
    forall id: byte | id != 0
      ensures id in H.Outs(conns, index) <==> tab[id] != null
      ensures id in H.Outs(conns, index) ==> tab[id].outBuf.Model() == H.Outs(conns, index)[id]
    {
      TabView(table, cs, conns, index, id);
    }
  }

  /** The code looks whether the connection of the message under way is in the table. */
  lemma TargetInTable(table: array<Connection?>, cs: seq<Connection>, h: H.Host, index: map<int, nat>, sendingTo: int)
    requires C.Indexes(table, cs, index) && |cs| == |h.table|
    requires -1 <= sendingTo < MAX_CONNECTIONS && sendingTo != 0 && P.TargetOf(sendingTo) == h.target
    ensures table.Length == MAX_CONNECTIONS
    ensures H.TargetThere(h, index) <==> (sendingTo == -1 || table[sendingTo] != null)
  {
  }

  /** Place of connection `i` in the table of the pump. */
  predicate InTable(conns: seq<Conn>, index: map<int, nat>, i: nat)
    requires i < |conns|
  {
    conns[i].id in index && index[conns[i].id] == i
  }

  /** What is in the table of the pump shares no memory with connection `i`, unless it is it. */
  lemma ApartFromTab(table: array<Connection?>, cs: seq<Connection>, index: map<int, nat>, i: nat)
    requires C.Indexes(table, cs, index) && Separate(cs) && i < |cs|
    ensures Apart(cs[i])
    ensures forall j :: 0 <= j < table.Length && table[j] != null ==> j in index && index[j] < |cs|
    ensures forall j :: 0 <= j < table.Length && table[j] != null && index[j] != i ==> Disjoint(cs[i], table[j])
    ensures forall j :: 0 <= j < table.Length && table[j] != null && index[j] == i ==> table[j] == cs[i]
  {
    forall j | 0 <= j < table.Length && table[j] != null && index[j] != i
      ensures Disjoint(cs[i], table[j])
    {
      DisjointEither(cs, i, index[j]);
    }
  }

  lemma DisjointEither(cs: seq<Connection>, i: nat, j: nat)
    requires Separate(cs) && i < |cs| && j < |cs| && i != j
    ensures Disjoint(cs[i], cs[j])
  {
    if j < i {
      assert Disjoint(cs[j], cs[i]);
    }
  }

  lemma OtherPlaces(table: array<Connection?>, cs: seq<Connection>, index: map<int, nat>, j: int)
    requires C.Indexes(table, cs, index) && Separate(table[..]) && 0 in index
    requires 0 < j < table.Length && table[j] != null
    ensures j in index && index[j] != index[0]
  {
    assert table[..][0] != table[..][j];
  }

  /** A place of the table that leads to connection `i`. */
  lemma PlaceOf(conns: seq<Conn>, index: map<int, nat>, i: nat, j: int)
    requires H.PumpTable(conns, index) && i < |conns| && j in index && index[j] == i
    ensures j == 0 || (InTable(conns, index, i) && j == conns[i].id)
  {
  }

  // ---------------------------------------------------------------- connections behind the pump

  ghost predicate SameFlags(c: Connection, d: Conn)
    reads c
  {
    c.id == d.id && c.state == d.state && c.inState == d.inState && c.outState == d.outState
  }

  lemma FlagsShown(cs: seq<Connection>, conns: seq<Conn>)
    requires C.Shows(cs, conns)
    ensures |cs| == |conns| && forall i :: 0 <= i < |cs| ==> SameFlags(cs[i], conns[i])
    ensures forall i :: 0 <= i < |cs| ==>
      cs[i].inBuf.Model() == conns[i].inb && cs[i].outBuf.Model() == conns[i].outb
  {
    assert forall i :: 0 <= i < |cs| ==> cs[i].View() == conns[i];
  }

  /** Connection `i` behind `recv_from_tunnel`. */
  lemma HeardView(table: array<Connection?>, cs: seq<Connection>, conns: seq<Conn>, index: map<int, nat>,
                  r: Received, i: nat)
    requires C.Indexes(table, cs, index) && H.Usable(conns, index) && H.PumpTable(conns, index)
    requires table.Length == MAX_CONNECTIONS && table[0] != null && P.Mirrors(table[..], r)
    requires i < |cs| == |conns| && SameFlags(cs[i], conns[i]) && r.outs.Keys == H.Outs(conns, index).Keys
    requires i != index[0] ==> cs[i].inBuf.Model() == conns[i].inb
    requires i == index[0] || !InTable(conns, index, i) ==> cs[i].outBuf.Model() == conns[i].outb
    ensures cs[i].View() == H.HeardConn(conns, index, r, i)
  {
    var id := conns[i].id;
    if i != index[0] && InTable(conns, index, i) {
      assert table[..][id] == cs[i];
    }
  }

  /** Connection `i` behind the sending half. */
  lemma SentView(table: array<Connection?>, cs: seq<Connection>, conns: seq<Conn>, index: map<int, nat>,
                 p: Pass, i: nat)
    requires C.Indexes(table, cs, index) && H.Usable(conns, index)
    requires table.Length == MAX_CONNECTIONS && table[0] != null && P.ShowsLive(table[..], p.srcs)
    requires i < |cs| == |conns| && SameFlags(cs[i], conns[i]) && cs[index[0]].outBuf.Model() == p.tout
    requires i == index[0] || !(InTable(conns, index, i) && conns[i].id in p.srcs) ==>
      cs[i].inBuf.Model() == conns[i].inb
    requires i != index[0] ==> cs[i].outBuf.Model() == conns[i].outb
    ensures cs[i].View() == H.SentConn(conns, index, p, i)
  {
    var id := conns[i].id;
    if i != index[0] && InTable(conns, index, i) && id in p.srcs {
      assert table[..][id] == cs[i];
    }
  }

  /** The in_bufs that the pump sends from are those of the connections that may send. */
  lemma SourcesShow(table: array<Connection?>, cs: seq<Connection>, conns: seq<Conn>, index: map<int, nat>)
    requires C.Indexes(table, cs, index) && C.Shows(cs, conns) && H.Usable(conns, index)
    requires H.PumpTable(conns, index)
    ensures table.Length == MAX_CONNECTIONS && P.ShowsLive(table[..], H.Sources(conns, index))
    ensures forall id: byte :: id in H.Sources(conns, index) ==>
      table[id] != null && table[id].id == id as int && H.Sources(conns, index)[id].Valid()
  {
    hide C.Indexes, C.Shows;
    TabView(table, cs, conns, index, 0);
    forall id: byte | id != 0
      ensures id in H.Sources(conns, index) <==>
        table[id] != null && table[id].state.IsAlive() && table[id].inState.IsAlive()
      ensures id in H.Sources(conns, index) ==>
        && table[id].inBuf.Model() == H.Sources(conns, index)[id]
        && table[id].id == id as int && H.Sources(conns, index)[id].Valid()
    {
      TabView(table, cs, conns, index, id);
      if id in H.Sources(conns, index) {
        assert conns[index[id]].Valid();
      }
    }
  }

  // ---------------------------------------------------------------- the steps of a host

  /** `h` behind the sending half of the pump. */
  function AfterSending(h: H.Host, index: map<int, nat>): (h': H.Host)
    requires H.Usable(H.Conns(h.table), index)
  {
    var (s, p) := H.Sending(Shipped, h, index);
    H.WithFrames(H.WithOrders(Shipped, h, s), p, H.SentConns(H.Conns(h.table), index, p))
  }

  lemma SentSlots(h: H.Host, h1: H.Host, index: map<int, nat>)
    requires H.Usable(H.Conns(h1.table), index)
    requires |h1.table| == |h.table| && h1.table == H.WithConns(h.table, H.Conns(h1.table))
    ensures
      var (_, p) := H.Sending(Shipped, h1, index);
      AfterSending(h1, index).table == H.WithConns(h.table, H.SentConns(H.Conns(h1.table), index, p))
  {
    hide H.Usable, H.Sending, H.SentConns, H.FrameEvents;
  }

  lemma PumpedIsBoth(h: H.Host, index: map<int, nat>)
    requires H.PumpOk(Shipped, h, index)
    ensures H.Pumped(Shipped, h, index) == AfterSending(H.Answered(Shipped, h, index), index)
  {
    hide H.Sending, H.SentConns, H.FrameEvents, H.Answered, H.PumpOk;
  }

  lemma NamedFacts(h: H.Host, s: Sorted)
    requires H.NamesOk(h) && NoneDeleted(H.Conns(h.table)) && s == Sort(H.Conns(h.table), h.free)
    ensures H.Conns(H.Named(h, s).table) == s.conns && |h.queue| <= QUEUE_SIZE
    ensures Partition(s.free, s.conns) && IndexOk(s.conns, s.index)
  {
    hide Partition, IndexOk, NoneDeleted;
    SortKeeps(H.Conns(h.table), h.free, |h.table|);
  }

  lemma HandledFacts(h: H.Host, s: Sorted, h0: H.Host)
    requires |h.queue| <= QUEUE_SIZE && h0.queue == h.queue && s.conns == H.Conns(h.table) && 0 in s.index
    requires Partition(s.free, s.conns) && IndexOk(s.conns, s.index)
    ensures
      var d := H.HandledAll(h, s);
      && d == H.HandledAll(h0, s) && 0 in d.index
      && H.Conns(H.Announced(h, d).table) == d.conns && IndexOk(d.conns, d.index)
      && (!d.again ==> H.PumpTable(d.conns, d.index))
  {
    hide Partition, HandleUpTo, H.PumpTable;
    H.HandledNames(h, s);
    H.AnnouncedTable(h, s);
    TunnelStays(Handled(s.conns, s.free, s.index, [], QUEUE_SIZE - |h.queue|, false), MAX_STACK_SIZE);
  }

  lemma BehindCases(h: H.Host, s: Sorted)
    requires |h.queue| <= QUEUE_SIZE && s == Sort(H.Conns(h.table), h.free)
    ensures H.Stops(s) ==> H.Behind(Shipped, h) == H.Named(h, s)
    ensures
      var d := H.HandledAll(h, s);
      var h3 := H.Announced(H.Named(h, s), d);
      && (!H.Stops(s) && d.again ==> H.Behind(Shipped, h) == h3)
      && (!H.Stops(s) && !d.again ==>
            if H.PumpOk(Shipped, h3, d.index) then
              H.Behind(Shipped, h) == H.Pumped(Shipped, h3, d.index)
              && H.Pumped(Shipped, h3, d.index).strayed == h.strayed
            else H.Behind(Shipped, h).strayed)
  {
    var d := H.HandledAll(h, s);
    var h3 := H.Announced(H.Named(h, s), d);
    if H.PumpOk(Shipped, h3, d.index) {
      H.PumpMarksStay(Shipped, h3, d.index);
    }
    hide H.PumpOk, H.HandledAll, Sort, H.Pumped;
  }

  lemma {:induction false} TunnelStays(h: Handled, n: nat)
    requires h.Valid() && 0 in h.index
    ensures 0 in HandleUpTo(h, true, n).index
  {
    hide React;
    if n > 0 {
      TunnelStays(h, n - 1);
    }
  }

  class Controller {
    const manager: M.ConnectionManager
    const freeIds: C.IdStack
    const pump: P.Pump

    constructor (manager: M.ConnectionManager, freeIds: C.IdStack, pump: P.Pump) {
      this.manager, this.freeIds, this.pump := manager, freeIds, pump;
    }

    /** Stack, queue and the state of the pump are those of `h`. */
    ghost predicate HasIds(h: H.Host)
      reads freeIds, freeIds.stack, pump, pump.queue, pump.queue.queue
    {
      && freeIds.Valid() && freeIds.Free() == h.free
      && pump.Valid() && pump.queue.queue.Length == QUEUE_SIZE && pump.queue.Waiting() == h.queue
      && pump.currentIndex == h.from && P.TargetOf(pump.sendingTo) == h.target
    }

    /** The objects show the state `h`. */
    ghost predicate IsHost(cs: seq<Connection>, h: H.Host)
      reads manager, manager.connections, manager.fds
      reads set i | 0 <= i < |cs| :: cs[i]
      reads set i | 0 <= i < |cs| :: cs[i].inBuf
      reads set i | 0 <= i < |cs| :: cs[i].inBuf.buffer
      reads set i | 0 <= i < |cs| :: cs[i].outBuf
      reads set i | 0 <= i < |cs| :: cs[i].outBuf.buffer
      reads freeIds, freeIds.stack, pump, pump.queue, pump.queue.queue
    {
      manager.Shows(cs, h.table) && HasIds(h)
    }

    /** `sort_connections`. */
    method NameAll(cs: seq<Connection>, table: array<Connection?>, ghost h: H.Host)
      requires IsHost(cs, h) && H.NamesOk(h) && BuffersOk(cs)
      requires table.Length == MAX_CONNECTIONS && table != manager.connections
      modifies freeIds`cnt, table, set i | 0 <= i < |cs| :: cs[i]
      ensures BuffersOk(cs)
      ensures
        var s := Sort(H.Conns(h.table), h.free);
        IsHost(cs, H.Named(h, s)) && C.Indexes(table, cs, s.index)
    {
      hide C.Shows, C.Indexes, Sort, H.NamesOk, BuffersOk, IsHost, Separate,
        M.ConnectionManager.Holds, H.WithConns, H.Conns;
      HostFacts(cs, h);
      StackFacts(h);
      var _ := C.SortConnections(freeIds, cs, table, H.Conns(h.table));
      ghost var s := Sort(H.Conns(h.table), h.free);
      BackToHost(cs, h, s.conns, H.Named(h, s));
    }

    /** `handle_state_changes`; says whether the pump gets its turn. */
    method GreetAll(cs: seq<Connection>, table: array<Connection?>, ghost h: H.Host, ghost s: Sorted)
      returns (go: bool)
      requires IsHost(cs, h) && BuffersOk(cs) && table != manager.connections
      requires s.conns == H.Conns(h.table) && s.free == h.free && 0 in s.index
      requires C.Indexes(table, cs, s.index) && |h.queue| <= QUEUE_SIZE
      requires forall k :: k in s.index ==> s.index[k] < |s.conns|
      modifies freeIds`cnt, freeIds.stack, pump.queue, pump.queue.queue, table
      modifies set i | 0 <= i < |cs| :: cs[i]
      ensures BuffersOk(cs)
      ensures
        if H.Stops(s) then !go && IsHost(cs, h)
        else
          var d := H.HandledAll(h, s);
          IsHost(cs, H.Announced(h, d)) && go == !d.again && C.Indexes(table, cs, d.index)
    {
      hide C.Shows, C.Indexes, HandleUpTo, BuffersOk, IsHost, Separate, M.ConnectionManager.Holds,
        H.WithConns, H.Conns, TunnelClosed;
      HostFacts(cs, h);
      var state := C.HandleStateChanges(true, freeIds, pump.queue, table, cs, s);
      go := state == C.StateOk;
      ghost var d := H.HandledAll(h, s);
      if state == C.StateShutdown {
        WithOwn(h.table);
        BackToHost(cs, h, s.conns, h);
      } else {
        BackToHost(cs, h, d.conns, H.Announced(h, d));
      }
    }

    /** `on_command` for a command that the peer may send. */
    method Obey(cs: seq<Connection>, c: Command, ghost h: H.Host)
      requires HasIds(h) && C.Shows(cs, H.Conns(h.table)) && FromPeer(c)
      modifies freeIds`cnt, freeIds.stack, pump.queue, pump.queue.queue, set i | 0 <= i < |cs| :: cs[i]
      ensures var h' := H.Reacted(Shipped, h, c); HasIds(h') && C.Shows(cs, H.Conns(h'.table))
    {
      hide Find, C.Shows, Apply, PeerEvents, ReleasesTwice;
      ghost var conns := H.Conns(h.table);
      ghost var nobody := Conn(0, NO_FLAGS, NO_FLAGS, NO_FLAGS, Ring(0, 0, []), Ring(0, 0, []));
      var _ := C.OnCommand(true, freeIds, pump.queue, cs, c, false, nobody, conns);
      ghost var k := OnCommand(Shipped, true, Control(conns, h.free, h.queue), c, None);
      assert k.conns[..|cs|] == k.conns;
    }

    /** `recv_from_tunnel`, and what it leaves alone: all in_bufs but the tunnel's, and the out_bufs
        of the tunnel and of connections that are not in the table of the pump. */
    method ListenApart(cs: seq<Connection>, table: array<Connection?>, tab: seq<Connection?>,
                       ghost h: H.Host, ghost index: map<int, nat>)
      returns (order: Option<Command>, outcome: P.Outcome)
      requires C.Indexes(table, cs, index) && tab == table[..] && Separate(cs) && Separate(tab) && pump.Valid()
      requires |tab| == MAX_CONNECTIONS && tab[0] != null && P.TargetOf(pump.sendingTo) == h.target
      requires pump.sendingTo != -1 && tab[0].inBuf.length > 0 ==> tab[pump.sendingTo] != null
      requires C.Shows(cs, H.Conns(h.table)) && H.Usable(H.Conns(h.table), index)
      requires H.PumpTable(H.Conns(h.table), index)
      modifies pump`sendingTo, tab[0].inBuf
      modifies set i | 0 < i < |tab| && tab[i] != null :: tab[i].outBuf
      modifies set i | 0 < i < |tab| && tab[i] != null :: tab[i].outBuf.buffer
      ensures pump.Valid() && |H.Conns(h.table)| == |cs|
      ensures
        var r := H.Hear(Shipped, h, index);
        && P.Agrees(outcome, r)
        && (outcome.Done? ==>
              P.Mirrors(tab, r) && P.TargetOf(pump.sendingTo) == H.Listened(h, index, r).target
              && order == OrderOf(r.got))
      ensures forall i :: 0 <= i < |cs| && i != index[0] ==> cs[i].inBuf.Model() == H.Conns(h.table)[i].inb
      ensures forall i :: 0 <= i < |cs| && (i == index[0] || !InTable(H.Conns(h.table), index, i)) ==>
        cs[i].outBuf.Model() == H.Conns(h.table)[i].outb
    {
      hide Separate, C.Indexes, C.Shows, P.Mirrors, Receiver.Receive, H.Hearing, H.PumpTable, RoundBuffer.Model,
        H.Outs, InTable, H.Conns;
      ghost var conns := H.Conns(h.table);
      HearingMirrors(table, cs, h, index);
      FlagsShown(cs, conns);
      TargetInTable(table, cs, h, index, pump.sendingTo) by { ShownLength(cs, h); }
      TunnelPlace(table, cs, index);
      InbLength(cs[index[0]], conns[index[0]]);
      order, outcome := pump.RecvFromTunnel(tab, H.Hearing(h, index));
      forall i | 0 <= i < |cs| && i != index[0]
        ensures cs[i].inBuf.Model() == conns[i].inb
      {
        ApartFromTab(table, cs, index, i);
        TunnelPlace(table, cs, index);
      }
      forall i | 0 <= i < |cs| && (i == index[0] || !InTable(conns, index, i))
        ensures cs[i].outBuf.Model() == conns[i].outb
      {
        ApartFromTab(table, cs, index, i);
        OutsElsewhere(table, cs, tab, conns, index, i);
      }
    }

    lemma TunnelPlace(table: array<Connection?>, cs: seq<Connection>, index: map<int, nat>)
      requires C.Indexes(table, cs, index) && 0 in index
      ensures table.Length == MAX_CONNECTIONS && index[0] < |cs| && table[0] == cs[index[0]]
    {
    }

    /** The tunnel, and a connection that is not in the table, are at no other place of it. */
    lemma OutsElsewhere(table: array<Connection?>, cs: seq<Connection>, tab: seq<Connection?>, conns: seq<Conn>,
                        index: map<int, nat>, i: nat)
      requires C.Indexes(table, cs, index) && tab == table[..] && Separate(tab) && 0 in index
      requires H.PumpTable(conns, index) && i < |cs| == |conns|
      requires i == index[0] || !InTable(conns, index, i)
      ensures forall j :: 0 < j < |tab| && tab[j] != null ==> j in index && index[j] != i
    {
      forall j | 0 < j < |tab| && tab[j] != null
        ensures j in index && index[j] != i
      {
        OtherPlaces(table, cs, index, j);
        if index[j] == i {
          PlaceOf(conns, index, i, j);
        }
      }
    }

    /** `recv_from_tunnel`. */
    method Listen(cs: seq<Connection>, table: array<Connection?>, tab: seq<Connection?>,
                  ghost h: H.Host, ghost index: map<int, nat>)
      returns (order: Option<Command>, outcome: P.Outcome)
      requires C.Indexes(table, cs, index) && tab == table[..] && Separate(cs) && Separate(tab) && HasIds(h)
      requires |tab| == MAX_CONNECTIONS && tab[0] != null
      requires pump.sendingTo != -1 && tab[0].inBuf.length > 0 ==> tab[pump.sendingTo] != null
      requires C.Shows(cs, H.Conns(h.table)) && H.Usable(H.Conns(h.table), index)
      requires H.PumpTable(H.Conns(h.table), index)
      modifies pump`sendingTo, tab[0].inBuf
      modifies set i | 0 < i < |tab| && tab[i] != null :: tab[i].outBuf
      modifies set i | 0 < i < |tab| && tab[i] != null :: tab[i].outBuf.buffer
      ensures
        var r := H.Hear(Shipped, h, index);
        && P.Agrees(outcome, r)
        && (outcome.Done? ==>
              && order == OrderOf(r.got) && HasIds(H.Listened(h, index, r))
              && C.Shows(cs, H.HeardConns(H.Conns(h.table), index, r)))
    {
      hide Separate, C.Indexes, C.Shows, P.Mirrors, H.Hear, H.PumpTable, H.Usable, H.TargetThere,
        RoundBuffer.Model, H.Outs, InTable, H.HeardConn, H.Conns, H.Takes;
      ghost var conns := H.Conns(h.table);
      FlagsShown(cs, conns);
      TunnelAt(table, cs, index);
      order, outcome := ListenApart(cs, table, tab, h, index);
      if outcome.Done? {
        ghost var r := H.Hear(Shipped, h, index);
        forall i | 0 <= i < |cs|
          ensures cs[i].View() == H.HeardConn(conns, index, r, i)
        {
          HeardView(table, cs, conns, index, r, i);
        }
        ShowsEach(cs, H.HeardConns(conns, index, r));
      }
    }

    lemma ShowsEach(cs: seq<Connection>, conns: seq<Conn>)
      requires Separate(cs) && |conns| == |cs| && forall i :: 0 <= i < |cs| ==> cs[i].View() == conns[i]
      ensures C.Shows(cs, conns)
    {
    }

    /** `recv_from_tunnel` with the handler of the command it may read. */
    method Hear(cs: seq<Connection>, table: array<Connection?>, tab: seq<Connection?>,
                ghost h: H.Host, ghost index: map<int, nat>)
      returns (strayed: bool)
      requires C.Indexes(table, cs, index) && tab == table[..] && Separate(cs) && Separate(tab) && HasIds(h)
      requires C.Shows(cs, H.Conns(h.table)) && H.Usable(H.Conns(h.table), index)
      requires H.PumpTable(H.Conns(h.table), index) && |tab| == MAX_CONNECTIONS && tab[0] != null
      modifies freeIds`cnt, freeIds.stack, pump`sendingTo, pump.queue, pump.queue.queue
      modifies set i | 0 <= i < |cs| :: cs[i]
      modifies tab[0].inBuf
      modifies set i | 0 < i < |tab| && tab[i] != null :: tab[i].outBuf
      modifies set i | 0 < i < |tab| && tab[i] != null :: tab[i].outBuf.buffer
      ensures strayed <==> !H.PumpOk(Shipped, h, index)
      ensures !strayed ==>
        var h1 := H.Answered(Shipped, h, index);
        HasIds(h1) && C.Shows(cs, H.Conns(h1.table))
    {
      hide C.Indexes, C.Shows, Separate, H.PumpTable, H.Usable, H.TargetThere, H.Hear, H.Reacted, H.HeardConns,
        H.Conns, H.Takes, HasIds;
      IdsFacts(h);
      TargetInTable(table, cs, h, index, pump.sendingTo) by { ShownLength(cs, h); }
      TunnelInput(table, cs, h, index);
      if tab[0].inBuf.length > 0 && pump.sendingTo != -1 && tab[pump.sendingTo] == null {
        return true;
      }
      var order, outcome := Listen(cs, table, tab, h, index);
      if !outcome.Done? || (order.Some? && (order.value.cmd == CMD_NEW || order.value.arg == 0)) {
        return true;
      }
      strayed := false;
      ghost var h0 := H.Listened(h, index, H.Hear(Shipped, h, index));
      if order.Some? {
        Obey(cs, order.value, h0);
      }
    }

    lemma InbLength(c: Connection, d: Conn)
      requires c.inBuf.Model() == d.inb
      ensures c.inBuf.length == d.inb.length
    {
    }

    lemma TunnelInput(table: array<Connection?>, cs: seq<Connection>, h: H.Host, index: map<int, nat>)
      requires C.Indexes(table, cs, index) && C.Shows(cs, H.Conns(h.table)) && H.Usable(H.Conns(h.table), index)
      ensures table.Length == MAX_CONNECTIONS && table[0] != null
      ensures table[0].inBuf.length == H.Conns(h.table)[index[0]].inb.length
    {
      FlagsShown(cs, H.Conns(h.table));
      InbLength(cs[index[0]], H.Conns(h.table)[index[0]]);
    }

    lemma IdsFacts(h: H.Host)
      requires HasIds(h)
      ensures pump.Valid() && P.TargetOf(pump.sendingTo) == h.target
    {
    }

    lemma ShownLength(cs: seq<Connection>, h: H.Host)
      requires C.Shows(cs, H.Conns(h.table))
      ensures |cs| == |h.table|
    {
    }

    /** `pump_transfer` behind the call of `recv_from_tunnel`. */
    method SendBare(table: array<Connection?>, tab: seq<Connection?>, ghost cs: seq<Connection>,
                    ghost h: H.Host, ghost index: map<int, nat>)
      requires C.Indexes(table, cs, index) && tab == table[..] && Separate(tab) && HasIds(h)
      requires C.Shows(cs, H.Conns(h.table)) && H.Usable(H.Conns(h.table), index)
      requires H.PumpTable(H.Conns(h.table), index) && |tab| == MAX_CONNECTIONS && tab[0] != null
      modifies pump`currentIndex, pump.queue, tab[0].outBuf, tab[0].outBuf.buffer
      modifies set j | j in H.Sources(H.Conns(h.table), index) && tab[j] != null :: tab[j].inBuf
      ensures HasIds(AfterSending(h, index))
      ensures var p := H.Sending(Shipped, h, index).1; tab[0].outBuf.Model() == p.tout && P.ShowsLive(tab, p.srcs)
    {
      hide Transfer, C.Indexes, C.Shows, Separate, P.ShowsLive, H.PumpTable, H.Usable, H.Sources, RoundBuffer.Model,
        H.Conns, H.SentConns, H.FrameEvents, Orders;
      SourcesShow(table, cs, H.Conns(h.table), index);
      SendingFacts(h, index);
      FlagsShown(cs, H.Conns(h.table));
      TunnelPlace(table, cs, index);
      TunnelSound(cs, H.Conns(h.table), index);
      pump.TransferOut(tab, H.Sources(H.Conns(h.table), index));
    }

    /** What it leaves alone: the in_bufs that are not offered an `encode`, and all out_bufs but the
        tunnel's. */
    method SendApart(cs: seq<Connection>, table: array<Connection?>, tab: seq<Connection?>,
                     ghost h: H.Host, ghost index: map<int, nat>)
      requires C.Indexes(table, cs, index) && tab == table[..] && Separate(cs) && Separate(tab) && HasIds(h)
      requires C.Shows(cs, H.Conns(h.table)) && H.Usable(H.Conns(h.table), index)
      requires H.PumpTable(H.Conns(h.table), index) && |tab| == MAX_CONNECTIONS && tab[0] != null
      modifies pump`currentIndex, pump.queue, tab[0].outBuf, tab[0].outBuf.buffer
      modifies set i | 0 < i < |tab| && tab[i] != null :: tab[i].inBuf
      ensures HasIds(AfterSending(h, index)) && |H.Conns(h.table)| == |cs|
      ensures
        var p := H.Sending(Shipped, h, index).1;
        && tab[0].outBuf.Model() == p.tout && P.ShowsLive(tab, p.srcs)
        && (forall i :: 0 <= i < |cs| && i != index[0] ==> cs[i].outBuf.Model() == H.Conns(h.table)[i].outb)
        && forall i :: 0 <= i < |cs| && (i == index[0] || !InTable(H.Conns(h.table), index, i)
                                         || H.Conns(h.table)[i].id !in p.srcs) ==>
             cs[i].inBuf.Model() == H.Conns(h.table)[i].inb
    {
      hide C.Indexes, C.Shows, Separate, P.ShowsLive, H.PumpTable, H.Usable, H.Sources, RoundBuffer.Model,
        InTable, H.Conns, HasIds, AfterSending, H.Sending;
      ghost var conns, srcs := H.Conns(h.table), H.Sources(H.Conns(h.table), index);
      SendingFacts(h, index);
      FlagsShown(cs, conns);
      TunnelPlace(table, cs, index);
      SendBare(table, tab, cs, h, index);
      forall i | 0 <= i < |cs| && i != index[0]
        ensures cs[i].outBuf.Model() == conns[i].outb
      {
        OutUntouched(table, cs, tab, index, i);
      }
      forall i | 0 <= i < |cs| && (i == index[0] || !InTable(conns, index, i) || conns[i].id !in srcs)
        ensures cs[i].inBuf.Model() == conns[i].inb
      {
        InUntouched(table, cs, tab, conns, index, i);
      }
    }

    lemma TunnelSound(cs: seq<Connection>, conns: seq<Conn>, index: map<int, nat>)
      requires H.Usable(conns, index) && |conns| == |cs| && cs[index[0]].outBuf.Model() == conns[index[0]].outb
      ensures cs[index[0]].outBuf.Valid()
    {
      assert conns[index[0]].Valid();
    }

    /** Such a connection is at no place of the table that the pump takes from. */
    lemma NotOffered(table: array<Connection?>, cs: seq<Connection>, tab: seq<Connection?>, conns: seq<Conn>,
                     index: map<int, nat>, i: nat)
      requires C.Indexes(table, cs, index) && tab == table[..] && Separate(tab) && 0 in index
      requires H.PumpTable(conns, index) && i < |cs| == |conns|
      requires i == index[0] || !InTable(conns, index, i) || conns[i].id !in H.Sources(conns, index)
      ensures forall j: byte :: j in H.Sources(conns, index) && tab[j] != null ==> j as int in index && index[j] != i
    {
      forall j: byte | j in H.Sources(conns, index) && tab[j] != null
        ensures j as int in index && index[j] != i
      {
        OtherPlaces(table, cs, index, j);
        if index[j] == i {
          PlaceOf(conns, index, i, j);
        }
      }
    }

    lemma OutUntouched(table: array<Connection?>, cs: seq<Connection>, tab: seq<Connection?>,
                       index: map<int, nat>, i: nat)
      requires C.Indexes(table, cs, index) && tab == table[..] && Separate(cs) && tab[0] != null
      requires 0 in index && i < |cs| && i != index[0]
      ensures cs[i].outBuf != tab[0].outBuf && cs[i].outBuf.buffer != tab[0].outBuf.buffer
      ensures forall j :: 0 <= j < |tab| && tab[j] != null ==> tab[j].inBuf != cs[i].outBuf
    {
      ApartFromTab(table, cs, index, i);
    }

    lemma InUntouched(table: array<Connection?>, cs: seq<Connection>, tab: seq<Connection?>, conns: seq<Conn>,
                      index: map<int, nat>, i: nat)
      requires C.Indexes(table, cs, index) && tab == table[..] && Separate(cs) && Separate(tab) && tab[0] != null
      requires 0 in index && H.PumpTable(conns, index) && i < |cs| == |conns|
      requires i == index[0] || !InTable(conns, index, i) || conns[i].id !in H.Sources(conns, index)
      ensures cs[i].inBuf != tab[0].outBuf && cs[i].inBuf.buffer != tab[0].outBuf.buffer
      ensures forall j: byte :: j in H.Sources(conns, index) && tab[j] != null ==> tab[j].inBuf != cs[i].inBuf
    {
      hide H.PumpTable, Separate, InTable, H.Sources;
      ApartFromTab(table, cs, index, i);
      NotOffered(table, cs, tab, conns, index, i);
    }

    lemma SendingFacts(h: H.Host, index: map<int, nat>)
      requires H.Usable(H.Conns(h.table), index)
      ensures index[0] < |h.table| == |H.Conns(h.table)| && 0 in index && 0 !in H.Sources(H.Conns(h.table), index)
      ensures H.Conns(h.table)[index[0]].outb == h.table[index[0]].conn.outb
      ensures H.Sending(Shipped, h, index).1.srcs.Keys == H.Sources(H.Conns(h.table), index).Keys
      ensures H.Sending(Shipped, h, index)
           == Transfer(Shipped, h.queue, h.table[index[0]].conn.outb, H.Sources(H.Conns(h.table), index), h.from)
    {
    }

    /** The sending half of `pump_transfer`. */
    method Send(cs: seq<Connection>, table: array<Connection?>, tab: seq<Connection?>,
                ghost h: H.Host, ghost index: map<int, nat>)
      requires C.Indexes(table, cs, index) && tab == table[..] && Separate(cs) && Separate(tab) && HasIds(h)
      requires C.Shows(cs, H.Conns(h.table)) && H.Usable(H.Conns(h.table), index)
      requires H.PumpTable(H.Conns(h.table), index) && |tab| == MAX_CONNECTIONS && tab[0] != null
      modifies pump`currentIndex, pump.queue, tab[0].outBuf, tab[0].outBuf.buffer
      modifies set i | 0 < i < |tab| && tab[i] != null :: tab[i].inBuf
      ensures HasIds(AfterSending(h, index))
      ensures C.Shows(cs, H.SentConns(H.Conns(h.table), index, H.Sending(Shipped, h, index).1))
    {
      hide C.Indexes, C.Shows, Separate, P.ShowsLive, H.PumpTable, H.Usable, H.Sending, HasIds, AfterSending,
        RoundBuffer.Model, InTable, H.SentConn, H.Conns;
      ghost var conns := H.Conns(h.table);
      FlagsShown(cs, conns);
      SendingFacts(h, index);
      TunnelPlace(table, cs, index);
      SendApart(cs, table, tab, h, index);
      ghost var p := H.Sending(Shipped, h, index).1;
      forall i | 0 <= i < |cs|
        ensures cs[i].View() == H.SentConn(conns, index, p, i)
      {
        SentView(table, cs, conns, index, p, i);
      }
      ShowsEach(cs, H.SentConns(conns, index, p));
    }

    /** `pump_transfer`. */
    method RunPump(cs: seq<Connection>, table: array<Connection?>, ghost h: H.Host, ghost index: map<int, nat>)
      returns (strayed: bool)
      requires IsHost(cs, h) && BuffersOk(cs) && table != manager.connections
      requires C.Indexes(table, cs, index) && IndexOk(H.Conns(h.table), index) && 0 in index
      requires H.PumpTable(H.Conns(h.table), index)
      modifies freeIds`cnt, freeIds.stack, pump, pump.queue, pump.queue.queue
      modifies set i | 0 <= i < |cs| :: cs[i]
      modifies set i | 0 <= i < |cs| :: cs[i].inBuf
      modifies set i | 0 <= i < |cs| :: cs[i].inBuf.buffer
      modifies set i | 0 <= i < |cs| :: cs[i].outBuf
      modifies set i | 0 <= i < |cs| :: cs[i].outBuf.buffer
      ensures strayed <==> !H.PumpOk(Shipped, h, index)
      ensures !strayed ==> IsHost(cs, H.Pumped(Shipped, h, index))
    {
      hide C.Shows, C.Indexes, BuffersOk, IsHost, Separate, M.ConnectionManager.Holds, IndexOk,
        H.PumpTable, H.Usable, H.PumpOk, HasIds, H.Pumped, H.WithConns, H.Conns, H.Answered, AfterSending,
        H.Sending, H.SentConns;
      HostFacts(cs, h);
      TableSeparate(table, cs, H.Conns(h.table), index);
      ShownUsable(cs, H.Conns(h.table), index);
      TunnelPlace(table, cs, index);
      TabFrom(table, cs, index);
      strayed := Hear(cs, table, table[..], h, index);
      if !strayed {
        ghost var h1 := H.Answered(Shipped, h, index);
        H.AnswerKeepsTable(Shipped, h, index);
        Send(cs, table, table[..], h1, index);
        H.AnswerKeepsSlots(Shipped, h, index);
        SentSlots(h, h1, index);
        PumpedIsBoth(h, index);
        BackToHost(cs, h, H.SentConns(H.Conns(h1.table), index, H.Sending(Shipped, h1, index).1),
                   AfterSending(h1, index));
      }
    }

    lemma TabFrom(table: array<Connection?>, cs: seq<Connection>, index: map<int, nat>)
      requires C.Indexes(table, cs, index)
      ensures forall i :: 0 <= i < table.Length && table[i] != null ==>
        i in index && index[i] < |cs| && table[i] == cs[index[i]]
    {
    }

    lemma ShownUsable(cs: seq<Connection>, conns: seq<Conn>, index: map<int, nat>)
      requires C.Shows(cs, conns) && BuffersOk(cs) && IndexOk(conns, index) && 0 in index
      ensures H.Usable(conns, index) && index[0] < |cs|
    {
      forall i | 0 <= i < |conns|
        ensures conns[i].Valid()
      {
        assert cs[i].View() == conns[i];
      }
    }

    /** What `update` does behind poll. */
    method Rest(cs: seq<Connection>, ghost h: H.Host) returns (course: Course)
      requires IsHost(cs, h) && H.NamesOk(h) && NoneDeleted(H.Conns(h.table)) && BuffersOk(cs)
      modifies freeIds`cnt, freeIds.stack, pump, pump.queue, pump.queue.queue
      modifies set i | 0 <= i < |cs| :: cs[i]
      modifies set i | 0 <= i < |cs| :: cs[i].inBuf
      modifies set i | 0 <= i < |cs| :: cs[i].inBuf.buffer
      modifies set i | 0 <= i < |cs| :: cs[i].outBuf
      modifies set i | 0 <= i < |cs| :: cs[i].outBuf.buffer
      ensures !course.Stopped? && |h.queue| <= QUEUE_SIZE
      ensures h.strayed || course.Strayed? <==> H.Behind(Shipped, h).strayed
      ensures course.Finished? ==> IsHost(cs, H.Behind(Shipped, h))
    {
      hide C.Indexes, BuffersOk, IsHost, Separate, Sort, TunnelClosed, H.NamesOk, H.PumpTable, IndexOk,
        Partition, NoneDeleted, H.PumpOk, H.Pumped, H.HandledAll, H.Conns, H.Behind;
      course := Finished;
      var table := new Connection?[MAX_CONNECTIONS](_ => null);
      NameAll(cs, table, h);
      ghost var s := Sort(H.Conns(h.table), h.free);
      ghost var h2 := H.Named(h, s);
      TunnelAt(table, cs, s.index);
      NamedFacts(h, s);
      BehindCases(h, s);
      if table[0] != null {
        var go := GreetAll(cs, table, h2, s);
        HandledFacts(h2, s, h);
        if go {
          ghost var d := H.HandledAll(h2, s);
          var strayed := RunPump(cs, table, H.Announced(h2, d), d.index);
          course := if strayed then Strayed else Finished;
        }
      }
    }

    /** `update`: one step of the host, in every detail of table, stack, queue and pump, unless the
        program strays, which it does exactly when the host does. */
    method Update(completes: bool, ios: seq<Io>, accepted: Option<int>, bufSize: nat,
                  ghost cs: seq<Connection>, ghost h: H.Host)
      returns (course: Course, closed: seq<int>, ghost cs': seq<Connection>, ghost p: PollInput)
      requires IsHost(cs, h) && H.NamesOk(h) && IoOk(Armed(h.table), ios)
      requires accepted.Some? ==> accepted.value >= 0 && |Armed(h.table)| < MAX_SLOTS
      modifies manager`count, manager.connections, manager.fds
      modifies freeIds`cnt, freeIds.stack, pump, pump.queue, pump.queue.queue
      modifies set i | 0 <= i < |cs| :: cs[i]
      modifies set i | 0 <= i < |cs| :: cs[i].inBuf
      modifies set i | 0 <= i < |cs| :: cs[i].inBuf.buffer
      modifies set i | 0 <= i < |cs| :: cs[i].outBuf
      modifies set i | 0 <= i < |cs| :: cs[i].outBuf.buffer
      ensures course.Stopped? <==> !completes
      ensures PollOk(h.table, p) && p.completes == completes && p.ios == ios
      ensures p.accepted.Some? <==> accepted.Some? && completes
      ensures p.accepted.Some? ==> p.accepted.value.sock == accepted.value
      ensures p.accepted.Some? ==> Sizes(p.accepted.value.conn) == (bufSize, bufSize)
      ensures closed == Poll(h.table, p).closed
      ensures h.strayed || course.Strayed? <==> H.Update(Shipped, h, p).strayed
      ensures !course.Strayed? ==> IsHost(cs', H.Update(Shipped, h, p))
    {
      hide IsHost, Separate, H.NamesOk, PollOk, Poll, IoOk, Armed, BuffersOk, NoneDeleted, H.Behind,
        H.Conns, HasIds, M.ConnectionManager.Shows;
      ManagerShows(cs, h);
      closed, cs', p := manager.CmPoll(completes, ios, accepted, bufSize, cs, h.table);
      ghost var h1 := H.Polled(h, p);
      HostShows(cs', h1);
      if !completes {
        return Stopped, closed, cs', p;
      }
      H.PollKeepsNames(h, p);
      H.PollLeavesNoneDeleted(h.table, p);
      PolledBuffers(cs', h, p);
      var all := manager.GetConnections(cs', h1.table);
      FreshParts(cs, cs');
      course := Rest(all, h1);
    }

    lemma ManagerShows(cs: seq<Connection>, h: H.Host)
      requires IsHost(cs, h)
      ensures manager.Shows(cs, h.table) && HasIds(h)
    {
    }

    lemma HostShows(cs: seq<Connection>, h: H.Host)
      requires manager.Shows(cs, h.table) && HasIds(h)
      ensures IsHost(cs, h)
    {
    }

    lemma PolledBuffers(cs: seq<Connection>, h: H.Host, p: PollInput)
      requires PollOk(h.table, p) && manager.Shows(cs, Poll(h.table, p).table)
      ensures BuffersOk(cs)
    {
      hide PollOk, Poll;
      PollLeavesValid(h.table, p);
      var t := Poll(h.table, p).table;
      forall i | 0 <= i < |cs|
        ensures cs[i].inBuf.Valid() && cs[i].outBuf.Valid()
      {
        assert cs[i].View() == t[i].conn && t[i] in t;
      }
    }

    twostate lemma FreshParts(cs: seq<Connection>, new ds: seq<Connection>)
      requires forall c :: c in ds && c !in cs ==> M.AllFresh(c)
      ensures forall i :: 0 <= i < |ds| ==> AllFreshOrOld(cs, ds[i])
    {
      forall i | 0 <= i < |ds|
        ensures AllFreshOrOld(cs, ds[i])
      {
        assert ds[i] in ds;
      }
    }

    twostate predicate AllFreshOrOld(cs: seq<Connection>, new c: Connection) {
      (exists j :: 0 <= j < |cs| && cs[j] == c) || M.AllFresh(c)
    }

    lemma HostFacts(cs: seq<Connection>, h: H.Host)
      requires IsHost(cs, h)
      ensures HasIds(h) && C.Shows(cs, H.Conns(h.table)) && Separate(cs)
      ensures manager.Valid() && manager.count == |cs| == |h.table| && manager.Holds(cs, h.table, 0, manager.count)
    {
      ManagerToController(manager, cs, h.table);
    }

    /** The table of the manager is as before, the connections show `conns`. */
    lemma BackToHost(cs: seq<Connection>, h: H.Host, conns: seq<Conn>, h': H.Host)
      requires C.Shows(cs, conns) && Separate(cs) && HasIds(h')
      requires manager.Valid() && manager.count == |cs| == |h.table| == |conns|
      requires manager.Holds(cs, h.table, 0, manager.count) && h'.table == H.WithConns(h.table, conns)
      ensures IsHost(cs, h')
    {
      ControllerToManager(manager, cs, h.table, conns);
    }
  }
}
