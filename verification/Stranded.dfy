/** Bytes in the in_buf of a connection whose source direction has ended: the pump passes them over,
    so they stay there, and the peer is not told of the end. */
module Stranded {
  import opened Basics
  import opened Ring
  import opened Wire
  import opened Connections
  import opened PollFds
  import opened Slots
  import opened Receiver
  import opened Scheduling
  import opened Protocol
  import opened Identifiers
  import opened Grammar
  import opened Duties
  import opened Runs
  import opened H = Host

  /** The connection holds identifier `k`, its source direction has ended, at the socket or by a
      command, and its in_buf is `b`. */
  predicate IsStuck(c: Conn, k: byte, b: Ring) {
    Holds(c, k) && !c.inState.IsAlive() && c.inb == b
  }

  ghost predicate StuckIn(cs: seq<Conn>, k: byte, b: Ring) {
    exists i :: 0 <= i < |cs| && IsStuck(cs[i], k, b)
  }

  ghost predicate Stuck(h: Host, k: byte, b: Ring) {
    StuckIn(Conns(h.table), k, b)
  }

  /** The event is data of `k`, or tells the peer that its source or all of it has ended. */
  predicate Tells(e: Event, k: byte) {
    IsData(e, k) || IsOrder(e, CMD_CLOSE, k) || IsOrder(e, CMD_CLOSE_SRC_TO_DST, k)
  }

  ghost predicate Quiet(es: seq<Event>, k: byte) {
    forall i :: 0 <= i < |es| ==> !Tells(es[i], k)
  }

  ghost predicate PeerClosed(es: seq<Event>, k: byte) {
    exists i :: 0 <= i < |es| && es[i] == PeerClose(k)
  }

  lemma QuietConcat(a: seq<Event>, b: seq<Event>, k: byte)
    ensures Quiet(a, k) && Quiet(b, k) ==> Quiet(a + b, k)
    ensures PeerClosed(a, k) ==> PeerClosed(a + b, k)
    ensures PeerClosed(b, k) ==> PeerClosed(a + b, k)
  {
    hide Tells;
    if PeerClosed(a, k) {
      var i :| 0 <= i < |a| && a[i] == PeerClose(k);
      assert (a + b)[i] == PeerClose(k);
    }
    if PeerClosed(b, k) {
      var i :| 0 <= i < |b| && b[i] == PeerClose(k);
      assert (a + b)[|a| + i] == PeerClose(k);
    }
  }

  // ---------------------------------------------------------------- poll

  lemma SomeHolder(cs: seq<Conn>, k: int)
    requires Holders(cs, |cs|, k) >= 1
    ensures exists i :: 0 <= i < |cs| && Holds(cs[i], k)
  {
    hide Holders, Holds;
    if forall i :: 0 <= i < |cs| ==> !Holds(cs[i], k) {
      CountsNobody(cs, |cs|, k);
    }
  }

  /** The holder of `k` behind a poll comes from the one in front of it. */
  lemma HolderDescends(h: Host, p: PollInput, i: nat, k: byte) returns (j: nat)
    requires NamesOk(h) && PollOk(h.table, p) && k != 0
    requires i < |h.table| && Holds(h.table[i].conn, k)
    ensures var t := Poll(h.table, p).table; j < |t| && Holds(t[j].conn, k) && Evolves(h.table[i], t[j])
  {
    hide Poll, PollOk, Holders, KeepsBytes, Times;
    var t := Poll(h.table, p).table;
    HolderCounts(Conns(h.table), i, |h.table|, k);
    PollHolders(h.table, p, k);
    SomeHolder(Conns(t), k);
    j :| 0 <= j < |t| && Holds(Conns(t)[j], k);
    PollDescends(h.table, p, t[j]);
    AcceptedUnnamed(h.table, p);
    var s :| s in h.table && Evolves(s, t[j]);
    var m :| 0 <= m < |h.table| && h.table[m] == s;
    assert Holds(Conns(h.table)[m], k);
    OneHolder(h.free, Conns(h.table), i, m, k);
  }

  lemma AcceptedUnnamed(t: seq<Slot>, p: PollInput)
    requires PollOk(t, p)
    ensures p.accepted.Some? ==> p.accepted.value.conn.id == -1
  {
    hide Armed, IoOk;
  }

  lemma EvolvesStuck(s: Slot, s': Slot, k: byte, b: Ring)
    requires Evolves(s, s') && IsStuck(s.conn, k, b)
    ensures IsStuck(s'.conn, k, b)
  {
    hide KeepsBytes;
  }

  lemma PollKeepsStuck(h: Host, p: PollInput, k: byte, b: Ring)
    requires NamesOk(h) && PollOk(h.table, p) && k != 0 && Stuck(h, k, b)
    ensures Stuck(Polled(h, p), k, b)
  {
    hide Poll, PollOk, Evolves, Partition;
    var i :| 0 <= i < |h.table| && IsStuck(Conns(h.table)[i], k, b);
    var j := HolderDescends(h, p, i, k);
    EvolvesStuck(h.table[i], Poll(h.table, p).table[j], k, b);
    assert IsStuck(Conns(Polled(h, p).table)[j], k, b);
  }

  // ---------------------------------------------------------------- names and announcements

  lemma {:induction false} SortLeavesNamed(cs: seq<Conn>, free: seq<int>, n: nat, i: nat)
    requires n <= |cs| && i < |cs| && !NeedsId(cs[i])
    ensures SortUpTo(cs, free, n).conns[i] == cs[i]
  {
    if n > 0 {
      SortLeavesNamed(cs, free, n - 1, i);
    }
  }

  lemma ReactKeepsStuck(c: Conn, room: nat, k: byte, b: Ring)
    requires IsStuck(c, k, b) && b.length > 0
    ensures IsStuck(React(c, room).conn, k, b)
  {
  }

  lemma StepKeepsStuck(h: Handled, n: int, i: nat, k: byte, b: Ring)
    requires h.Valid() && i < |h.conns| && IsStuck(h.conns[i], k, b) && b.length > 0
    ensures IsStuck(HandleStep(h, true, n).conns[i], k, b)
  {
    hide React, IsStuck;
    if !h.again && n in h.index && h.index[n] == i {
      ReactKeepsStuck(h.conns[i], h.room - |h.said|, k, b);
    }
  }

  lemma {:induction false} HandleKeepsStuck(h: Handled, n: nat, i: nat, k: byte, b: Ring)
    requires h.Valid() && i < |h.conns| && IsStuck(h.conns[i], k, b) && b.length > 0
    ensures IsStuck(HandleUpTo(h, true, n).conns[i], k, b)
  {
    hide HandleStep, IsStuck;
    if n > 0 {
      HandleKeepsStuck(h, n - 1, i, k, b);
      StepKeepsStuck(HandleUpTo(h, true, n - 1), n, i, k, b);
    }
  }

  lemma StuckOwesNoEnd(c: Conn, k: byte, b: Ring)
    requires IsStuck(c, k, b) && b.length > 0
    ensures CMD_CLOSE !in Owed(c) && CMD_CLOSE_SRC_TO_DST !in Owed(c)
  {
    OwedCases(c);
  }

  /** Nothing that `handle_state_changes` says tells of the end of a stuck connection. */
  lemma HandleIsQuiet(h: Handled, i: nat, k: byte, b: Ring)
    requires h.Valid() && IndexOk(h.conns, h.index) && h.said == [] && !h.again
    requires Partition(h.free, h.conns) && k != 0 && i < |h.conns| && IsStuck(h.conns[i], k, b) && b.length > 0
    ensures Quiet(Emits(HandleUpTo(h, true, MAX_STACK_SIZE).said), k)
  {
    hide HandleUpTo, OwedUpTo, Owed, Times, Holders;
    var n := MAX_STACK_SIZE;
    var owed := OwedUpTo(h.conns, h.index, n);
    HandleSaysOwed(h, true, n);
    OwedIff(h.conns, h.index, n, k, CMD_CLOSE);
    OwedIff(h.conns, h.index, n, k, CMD_CLOSE_SRC_TO_DST);
    StuckOwesNoEnd(h.conns[i], k, b);
    if k as int in h.index {
      OneHolder(h.free, h.conns, i, h.index[k], k);
    }
    FrontIn(owed, h.room, Command(CMD_CLOSE, k));
    FrontIn(owed, h.room, Command(CMD_CLOSE_SRC_TO_DST, k));
    QuietCommands(HandleUpTo(h, true, n).said, k);
  }

  lemma QuietCommands(said: seq<Command>, k: byte)
    requires Command(CMD_CLOSE, k) !in said && Command(CMD_CLOSE_SRC_TO_DST, k) !in said
    ensures Quiet(Emits(said), k)
  {
  }

  // ---------------------------------------------------------------- the pump

  /** A command of the peer leaves a stuck connection as it is, or closes it. */
  lemma ReactedKeepsStuck(v: Variant, h: Host, c: Command, i: nat, k: byte, b: Ring)
    requires FromPeer(c) && i < |h.table| && IsStuck(Conns(h.table)[i], k, b)
    ensures var h' := Reacted(v, h, c);
            |h'.table| == |h.table|
            && (IsStuck(Conns(h'.table)[i], k, b) || PeerClosed(PeerEvents(ControlOf(h), c), k))
  {
    hide Find;
    if c.cmd == CMD_CLOSE && Find(Conns(h.table), c.arg, 0) == Some(i) {
      assert PeerEvents(ControlOf(h), c)[0] == PeerClose(k);
    }
  }

  lemma PeerIsQuiet(k: Control, c: Command, id: byte)
    ensures Quiet(PeerEvents(k, c), id)
  {
    hide PeerCloses;
  }

  lemma StuckMayNotSend(free: seq<int>, cs: seq<Conn>, index: map<int, nat>, i: nat, k: byte, b: Ring)
    requires Partition(free, cs) && PumpTable(cs, index) && k != 0 && i < |cs| && IsStuck(cs[i], k, b)
    ensures !MaySend(cs, index, k)
  {
    hide Times, Holders;
    if MaySend(cs, index, k) {
      assert Holds(cs[index[k]], k) && Assigned(free, cs, k);
      OneHolder(free, cs, i, index[k], k);
    }
  }

  lemma FramesAreQuiet(cs: seq<Conn>, index: map<int, nat>, frames: seq<Item>, k: byte)
    requires !MaySend(cs, index, k)
    requires forall i :: 0 <= i < |frames| ==> frames[i].Data? && MaySend(cs, index, frames[i].id)
    ensures Quiet(FrameEvents(frames), k)
  {
    hide MaySend;
  }

  lemma PassedStuck(cs: seq<Conn>, index: map<int, nat>, p: Pass, i: nat, k: byte, b: Ring)
    requires Usable(cs, index) && p.srcs.Keys == Sources(cs, index).Keys
    requires i < |cs| && IsStuck(cs[i], k, b) && !MaySend(cs, index, k) && index[0] != i
    ensures IsStuck(SentConn(cs, index, p, i), k, b)
  {
    hide MaySend;
  }

  /** The sending half of the turn of the pump. */
  lemma SendingKeepsStuck(v: Variant, h: Host, index: map<int, nat>, i: nat, k: byte, b: Ring)
    requires NamesOk(h) && PumpTable(Conns(h.table), index) && Usable(Conns(h.table), index) && k != 0
    requires i < |h.table| && IsStuck(Conns(h.table)[i], k, b) && index[0] != i
    ensures
      var p := Sending(v, h, index).1;
      IsStuck(SentConns(Conns(h.table), index, p)[i], k, b) && Quiet(FrameEvents(p.items), k)
  {
    hide PumpTable, Partition, Usable, Sending, SentConn, MaySend, FrameEvents, IsStuck;
    var cs, p := Conns(h.table), Sending(v, h, index).1;
    SendingObeysFlags(v, h, index);
    StuckMayNotSend(h.free, cs, index, i, k, b);
    FramesAreQuiet(cs, index, p.items, k);
    PassedStuck(cs, index, p, i, k, b);
  }

  /** What was read out of the tunnel in one turn, and the end of a connection by the command. */
  function News(v: Variant, h: Host, index: map<int, nat>): (es: seq<Event>)
    requires PumpOk(v, h, index)
    ensures Answered(v, h, index).log == h.log + es
  {
    var r := Hear(v, h, index);
    var c := OrderOf(r.got);
    Takes(r.got) + if c.Some? then PeerEvents(ControlOf(Listened(h, index, r)), c.value) else []
  }

  lemma TakesAreQuiet(got: seq<Atom>, k: byte)
    ensures Quiet(Takes(got), k)
  {
  }

  lemma HeardStuck(h: Host, index: map<int, nat>, r: Received, i: nat, k: byte, b: Ring)
    requires Usable(Conns(h.table), index) && i < |h.table| && IsStuck(Conns(h.table)[i], k, b) && index[0] != i
    ensures var h0 := Listened(h, index, r); |h0.table| == |h.table| && IsStuck(Conns(h0.table)[i], k, b)
  {
  }

  lemma AnswerKeepsStuck(v: Variant, h: Host, index: map<int, nat>, i: nat, k: byte, b: Ring)
    requires PumpOk(v, h, index) && i < |h.table| && IsStuck(Conns(h.table)[i], k, b) && index[0] != i
    ensures
      var h1 := Answered(v, h, index);
      && Quiet(News(v, h, index), k) && |h1.table| == |h.table|
      && (PeerClosed(News(v, h, index), k) || IsStuck(Conns(h1.table)[i], k, b))
  {
    hide IsStuck, Usable, TargetThere, Hear, Listened, Reacted, PeerEvents, PeerClosed, Quiet, Takes;
    var r := Hear(v, h, index);
    var h0 := Listened(h, index, r);
    HeardStuck(h, index, r, i, k, b);
    TakesAreQuiet(r.got, k);
    QuietConcat(Takes(r.got), [], k);
    if OrderOf(r.got).Some? {
      var c := OrderOf(r.got).value;
      ReactedKeepsStuck(v, h0, c, i, k, b);
      PeerIsQuiet(ControlOf(h0), c, k);
      QuietConcat(Takes(r.got), PeerEvents(ControlOf(h0), c), k);
    } else {
      assert Takes(r.got) + [] == Takes(r.got);
    }
  }

  lemma PumpKeepsStuck(v: Variant, h: Host, index: map<int, nat>, i: nat, k: byte, b: Ring)
    requires NamesOk(h) && PumpTable(Conns(h.table), index) && PumpOk(v, h, index) && k != 0
    requires i < |h.table| && IsStuck(Conns(h.table)[i], k, b) && index[0] != i
    requires !Pumped(v, h, index).twice
    ensures
      var e := Pumped(v, h, index);
      && h.log <= e.log
      && (PeerClosed(e.log[|h.log|..], k)
          || (i < |e.table| && IsStuck(Conns(e.table)[i], k, b) && Quiet(e.log[|h.log|..], k)))
  {
    hide NamesOk, PumpTable, Usable, Sending, SentConns, Answered, IsStuck, FrameEvents, Quiet, PeerClosed, News,
      PumpOk;
    var h1 := Answered(v, h, index);
    var (s, p) := Sending(v, h1, index);
    OrdersSame(v, h1, s);
    var news, frames := News(v, h, index), FrameEvents(p.items);
    var e := Pumped(v, h, index);
    assert e.log == (h.log + news) + frames;
    assert e.log[|h.log|..] == news + frames;
    QuietConcat(news, frames, k);
    AnswerKeepsStuck(v, h, index, i, k, b);
    AnswerKeepsNames(v, h, index);
    AnswerKeepsTable(v, h, index);
    if !PeerClosed(news, k) {
      SendingKeepsStuck(v, h1, index, i, k, b);
    }
  }

  // ---------------------------------------------------------------- whole runs

  /** From state `h` to `e` the connection stayed stuck and nobody was told, or the peer closed it. */
  ghost predicate StaysStuck(h: Host, e: Host, k: byte, b: Ring) {
    h.log <= e.log
    && (PeerClosed(e.log[|h.log|..], k) || (Stuck(e, k, b) && Quiet(e.log[|h.log|..], k)))
  }

  lemma StaysStuckOn(h: Host, x: Host, e: Host, k: byte, b: Ring)
    requires StaysStuck(h, x, k, b) && StaysStuck(x, e, k, b)
    ensures StaysStuck(h, e, k, b)
  {
    hide Quiet, PeerClosed, Stuck;
    var old1, new1 := x.log[|h.log|..], e.log[|x.log|..];
    assert h.log + old1 == x.log && x.log + new1 == e.log;
    assert e.log[|h.log|..] == old1 + new1;
    QuietConcat(old1, new1, k);
  }

  lemma NoNews(log: seq<Event>, k: byte)
    ensures log[|log|..] == [] && Quiet(log[|log|..], k)
  {
  }

  /** Names and announcements keep the connection at place `i` stuck. */
  lemma AnnouncedStuck(h: Host, s: Sorted, i: nat, k: byte, b: Ring)
    requires |h.queue| <= QUEUE_SIZE && |s.conns| == |h.table| && k != 0 && b.length > 0
    requires Partition(s.free, s.conns) && IndexOk(s.conns, s.index)
    requires i < |s.conns| && IsStuck(s.conns[i], k, b)
    ensures
      var e := Announced(Named(h, s), HandledAll(h, s));
      && |e.table| == |h.table| && IsStuck(Conns(e.table)[i], k, b)
      && h.log <= e.log && Quiet(e.log[|h.log|..], k)
  {
    hide HandleUpTo, IsStuck, Partition, Quiet, Emits;
    var d0 := Handled(s.conns, s.free, s.index, [], QUEUE_SIZE - |h.queue|, false);
    HandleKeepsStuck(d0, MAX_STACK_SIZE, i, k, b);
    HandleIsQuiet(d0, i, k, b);
    var d := HandledAll(h, s);
    assert (h.log + Emits(d.said))[|h.log|..] == Emits(d.said);
  }

  lemma StuckIsNamed(c: Conn, k: byte, b: Ring)
    requires IsStuck(c, k, b)
    ensures !NeedsId(c) && c.id == k as int
  {
  }

  lemma StuckAt(h: Host, e: Host, i: nat, k: byte, b: Ring)
    requires i < |e.table| && IsStuck(Conns(e.table)[i], k, b) && h.log <= e.log && Quiet(e.log[|h.log|..], k)
    ensures StaysStuck(h, e, k, b)
  {
  }

  lemma TunnelElsewhere(d: Handled, i: nat, k: byte, b: Ring)
    requires IndexOk(d.conns, d.index) && i < |d.conns| && IsStuck(d.conns[i], k, b) && k != 0
    ensures 0 in d.index ==> d.index[0] != i
  {
  }

  lemma BehindKeepsStuck(v: Variant, h: Host, i: nat, k: byte, b: Ring)
    requires NamesOk(h) && NoneDeleted(Conns(h.table)) && k != 0 && b.length > 0
    requires i < |h.table| && IsStuck(Conns(h.table)[i], k, b) && !Behind(v, h).twice
    ensures StaysStuck(h, Behind(v, h), k, b)
  {
    hide Partition, IndexOk, IsStuck, NoneDeleted, SortUpTo, HandledAll, PumpOk, Pumped, StaysStuck, Quiet, PumpTable;
    var cs := Conns(h.table);
    StuckIsNamed(cs[i], k, b);
    SortKeeps(cs, h.free, |cs|);
    SortLeavesNamed(cs, h.free, |cs|, i);
    var s := Sort(cs, h.free);
    var h2 := Named(h, s);
    NoNews(h.log, k);
    if Stops(s) {
      StuckAt(h, h2, i, k, b);
    } else {
      AnnouncedStuck(h, s, i, k, b);
      var d := HandledAll(h, s);
      var h3 := Announced(h2, d);
      StuckAt(h, h3, i, k, b);
      StuckAt(h, h3.(strayed := true), i, k, b);
      if !d.again && PumpOk(v, h3, d.index) {
        HandledNames(h, s);
        AnnouncedTable(h, s);
        AnnouncedFits(h, s);
        TunnelElsewhere(d, i, k, b);
        PumpHasTunnel(v, h3, d.index);
        PumpKeepsStuck(v, h3, d.index, i, k, b);
        PumpStays(h3, Pumped(v, h3, d.index), i, k, b);
        StaysStuckOn(h, h3, Behind(v, h), k, b);
      }
    }
  }

  lemma PumpStays(h: Host, e: Host, i: nat, k: byte, b: Ring)
    requires h.log <= e.log
    requires PeerClosed(e.log[|h.log|..], k)
             || (i < |e.table| && IsStuck(Conns(e.table)[i], k, b) && Quiet(e.log[|h.log|..], k))
    ensures StaysStuck(h, e, k, b)
  {
  }

  lemma UpdateKeepsStuck(v: Variant, h: Host, u: PollInput, k: byte, b: Ring)
    requires NamesOk(h) && PollOk(h.table, u) && k != 0 && b.length > 0 && Stuck(h, k, b)
    requires !Update(v, h, u).twice
    ensures StaysStuck(h, Update(v, h, u), k, b)
  {
    hide NamesOk, Behind, Poll, PollOk, IsStuck, NoneDeleted, Quiet, PeerClosed;
    PollKeepsStuck(h, u, k, b);
    PollKeepsNames(h, u);
    var h1 := Polled(h, u);
    NoNews(h.log, k);
    if u.completes {
      PollLeavesNoneDeleted(h.table, u);
      var i :| 0 <= i < |h1.table| && IsStuck(Conns(h1.table)[i], k, b);
      BehindKeepsStuck(v, h1, i, k, b);
    }
  }

  lemma NextKeepsStuck(v: Variant, h: Host, x: Host, u: PollInput, k: byte, b: Ring)
    requires k != 0 && b.length > 0
    requires x.twice || (NamesOk(x) && StaysStuck(h, x, k, b))
    ensures var e := Next(v, x, u); e.twice || (NamesOk(e) && StaysStuck(h, e, k, b))
  {
    hide NamesOk, Update, PollOk, Quiet, Stuck;
    MarksStay(v, x, u);
    NextKeepsNames(v, x, u);
    var e := Next(v, x, u);
    if !x.strayed && !e.twice && PollOk(x.table, u) && |x.queue| <= QUEUE_SIZE {
      LogGrows(v, x, u);
      if PeerClosed(x.log[|h.log|..], k) {
        assert e.log[|h.log|..] == x.log[|h.log|..] + e.log[|x.log|..];
        QuietConcat(x.log[|h.log|..], e.log[|x.log|..], k);
      } else {
        UpdateKeepsStuck(v, x, u, k, b);
        StaysStuckOn(h, x, e, k, b);
      }
    }
  }

  lemma PumpedGrows(v: Variant, h: Host, index: map<int, nat>)
    requires PumpOk(v, h, index)
    ensures h.log <= Pumped(v, h, index).log
  {
    hide Sending, Usable, SentConns, News, FrameEvents, Answered, PumpOk;
    assert Answered(v, h, index).log == h.log + News(v, h, index);
  }

  lemma LogGrows(v: Variant, h: Host, u: PollInput)
    ensures h.log <= Next(v, h, u).log
  {
    hide Poll, PollOk, Sort, Stops, HandledAll, PumpOk, Pumped, Emits;
    if !h.strayed && PollOk(h.table, u) && |h.queue| <= QUEUE_SIZE && u.completes {
      var h1 := Polled(h, u);
      var s := Sort(Conns(h1.table), h1.free);
      if !Stops(s) {
        var d := HandledAll(h1, s);
        var h3 := Announced(Named(h1, s), d);
        if PumpOk(v, h3, d.index) {
          PumpedGrows(v, h3, d.index);
        }
      }
    }
  }

  /** Bytes in the in_buf of a connection whose source direction has ended stay where they are over
      every further run, shipped or corrected, and the peer is never told that the source, or the
      connection, has ended; unless the peer closes the connection. */
  lemma StrandedForever(v: Variant, h: Host, us: seq<PollInput>, k: byte, b: Ring)
    requires NamesOk(h) && k != 0 && b.length > 0 && Stuck(h, k, b)
    ensures
      var e := Run(v, h, us);
      e.twice || (h.log <= e.log
        && (PeerClosed(e.log[|h.log|..], k) || (Stuck(e, k, b) && Quiet(e.log[|h.log|..], k))))
  {
    hide NamesOk, Next, Quiet, PeerClosed, Stuck;
    NoNews(h.log, k);
    assert StaysStuck(h, h, k, b);
    forall x: Host, u | x.twice || (NamesOk(x) && StaysStuck(h, x, k, b))
      ensures Next(v, x, u).twice || (NamesOk(Next(v, x, u)) && StaysStuck(h, Next(v, x, u), k, b))
    {
      NextKeepsStuck(v, h, x, u, k, b);
    }
    RunKeeps((x, u) => Next(v, x, u), (x: Host) => x.twice || (NamesOk(x) && StaysStuck(h, x, k, b)), h, us, |us|);
  }

  // ---------------------------------------------------------------- when the end is told

  /** In an `update` that gets through its announcements: the end of a source that its socket ended
      is said, by CLOSE_SRC_TO_DST or by CLOSE, if and only if the in_buf is empty. */
  lemma SourceEndSaidIff(h: Host, p: PollInput, k: byte)
    requires NamesOk(h) && PollOk(h.table, p) && p.completes && |h.queue| <= QUEUE_SIZE && k != 0
    requires var s := Sort(Conns(Polled(h, p).table), h.free);
             !HandledAll(Polled(h, p), s).again && k as int in s.index
    ensures
      var s := Sort(Conns(Polled(h, p).table), h.free);
      var c := s.conns[s.index[k]];
      var said := HandledAll(Polled(h, p), s).said;
      && Holds(c, k)
      && (c.inState.closed && !c.inState.delete ==>
            (Command(CMD_CLOSE_SRC_TO_DST, k) in said || Command(CMD_CLOSE, k) in said <==> c.inb.length == 0))
  {
    hide Poll, PollOk, Sort, HandleUpTo, Partition;
    var h1 := Polled(h, p);
    SortedNames(h, p);
    var s := Sort(Conns(h1.table), h1.free);
    UnblockedSaysExactly(Handled(s.conns, s.free, s.index, [], QUEUE_SIZE - |h1.queue|, false), true, k);
  }

  /** One byte is in the in_buf when the source and then the whole socket ends: it is stuck, the
      connection is closed, and nothing is owed to the peer. */
  lemma StrandedExample(x: byte)
    ensures
      var c := Conn(1, NO_FLAGS, NO_FLAGS, NO_FLAGS, Ring(0, 1, [x, 0]), Ring(0, 0, [0]));
      var s1 := CloseSlot(DoIo(Slot(c, PollFd(5, true, false), 5, Some([x]), []), Io(Ended, NotReady)));
      var s2 := CloseSlot(s1.(conn := SetOutState(s1.conn, s1.conn.outState.(delete := true))));
      && c.Valid() && s1.conn.inState.closed && IsStuck(s1.conn, 1, c.inb) && Owed(s1.conn) == []
      && s2.conn.state.closed && IsStuck(s2.conn, 1, c.inb) && Owed(s2.conn) == []
  {
  }
}
