/** Over whole runs of the accepting side: what is said about each identifier keeps the order of the
    protocol, and the tunnel carries what was said. */
module WireOrder {
  import opened Basics
  import opened Ring
  import opened Wire
  import opened Connections
  import opened Slots
  import opened Receiver
  import opened Scheduling
  import opened Protocol
  import opened Identifiers
  import opened Grammar
  import opened Runs
  import opened H = Host

  ghost predicate InOrder(h: Host, k: byte) {
    Matches(Conns(h.table), h.Phase(k), k)
  }

  /** Behind a poll are connections that descend from those before, with the flags that count here,
      and new ones without identifier. */
  lemma PollKeepsMatches(t: seq<Slot>, p: PollInput, ph: Phase, k: byte)
    requires PollOk(t, p) && k != 0 && Matches(Conns(t), ph, k)
    ensures Matches(Conns(Poll(t, p).table), ph, k)
  {
    hide Poll, PollOk, Agrees, Holds;
    var t' := Poll(t, p).table;
    forall i | 0 <= i < |t'| && Holds(Conns(t')[i], k)
      ensures Agrees(Conns(t')[i], ph)
    {
      PollAgrees(t, p, t'[i], ph, k);
    }
    if forall i :: 0 <= i < |t'| ==> !Holds(Conns(t')[i], k) {
      PollHolders(t, p, k);
      CountsNobody(Conns(t'), |t'|, k);
      NoHolder(Conns(t), k);
    }
  }

  lemma PollKeepsOrder(h: Host, p: PollInput, k: byte)
    requires PollOk(h.table, p) && k != 0 && InOrder(h, k)
    ensures InOrder(Polled(h, p), k)
  {
    hide PhaseAfter, Poll, PollOk, Matches;
    PollKeepsMatches(h.table, p, h.Phase(k), k);
  }

  lemma PollAgrees(t: seq<Slot>, p: PollInput, s: Slot, ph: Phase, k: byte)
    requires PollOk(t, p) && s in Poll(t, p).table && k != 0
    requires Matches(Conns(t), ph, k) && Holds(s.conn, k)
    ensures Agrees(s.conn, ph)
  {
    hide Poll, Armed, IoOk;
    PollDescends(t, p, s);
    if o :| o in t && Evolves(o, s) {
      var i :| 0 <= i < |t| && t[i] == o;
      assert Holds(Conns(t)[i], k);
    }
  }

  lemma SameOrder(cs: seq<Conn>, ds: seq<Conn>, ph: Phase, k: byte)
    requires Matches(cs, ph, k) && |ds| == |cs|
    requires forall i :: 0 <= i < |cs| ==> SameButBuffers(cs[i], ds[i])
    ensures Matches(ds, ph, k)
  {
    assert forall i :: 0 <= i < |cs| ==> Holds(ds[i], k) == Holds(cs[i], k);
  }

  /** Frames of connections that may send do not change the phase. */
  lemma {:induction false} FramesKeepPhase(
      cs: seq<Conn>, index: map<int, nat>, frames: seq<Item>, n: nat, ph: Phase, k: byte)
    requires n <= |frames| && k != 0 && Matches(cs, ph, k) && PumpTable(cs, index)
    requires forall i :: 0 <= i < n ==> frames[i].Data? && MaySend(cs, index, frames[i].id)
    ensures PhaseAfter(ph, FrameEvents(frames), n, k) == ph
  {
    if n > 0 {
      FramesKeepPhase(cs, index, frames, n - 1, ph, k);
      var id := frames[n - 1].id;
      assert MaySend(cs, index, id);
      if id == k {
        assert Holds(cs[index[id]], k);
      }
    }
  }

  lemma ReactedInOrder(v: Variant, h: Host, c: Command, k: byte)
    requires NamesOk(h) && k != 0 && InOrder(h, k) && FromPeer(c) && !Reacted(v, h, c).twice
    ensures InOrder(Reacted(v, h, c), k)
  {
    hide PhaseAfter, PeerEvents, Partition, Matches, OnCommand, ReleasesTwice;
    PartitionHolds(h.free, Conns(h.table), k);
    OnCommandMatches(v, true, ControlOf(h), c, h.Phase(k), k);
    PhaseConcat(Idle, h.log, PeerEvents(ControlOf(h), c), k);
  }

  lemma FramedInOrder(h: Host, index: map<int, nat>, p: Pass, after: seq<Conn>, k: byte)
    requires k != 0 && InOrder(h, k) && PumpTable(Conns(h.table), index) && |after| == |h.table|
    requires forall i :: 0 <= i < |p.items| ==>
      p.items[i].Data? && MaySend(Conns(h.table), index, p.items[i].id)
    requires forall i :: 0 <= i < |after| ==> SameButBuffers(h.table[i].conn, after[i])
    ensures InOrder(WithFrames(h, p, after), k)
  {
    hide PhaseAfter, Matches, MaySend, PumpTable, SameButBuffers;
    var ph := h.Phase(k);
    FramesKeepPhase(Conns(h.table), index, p.items, |p.items|, ph, k);
    PhaseConcat(Idle, h.log, FrameEvents(p.items), k);
    SameOrder(Conns(h.table), after, ph, k);
  }

  lemma {:induction false} TakesKeepPhase(got: seq<Atom>, n: nat, ph: Phase, k: byte)
    requires n <= |got|
    ensures PhaseAfter(ph, Takes(got), n, k) == ph
  {
    if n > 0 {
      TakesKeepPhase(got, n - 1, ph, k);
    }
  }

  lemma ListenedInOrder(h: Host, index: map<int, nat>, r: Received, k: byte)
    requires InOrder(h, k) && Usable(Conns(h.table), index)
    ensures InOrder(Listened(h, index, r), k)
  {
    hide PhaseAfter, Matches, Usable, HeardConns;
    TakesKeepPhase(r.got, |r.got|, h.Phase(k), k);
    PhaseConcat(Idle, h.log, Takes(r.got), k);
    HeardSame(Conns(h.table), index, r);
    SameOrder(Conns(h.table), HeardConns(Conns(h.table), index, r), h.Phase(k), k);
  }

  lemma AnsweredInOrder(v: Variant, h: Host, index: map<int, nat>, k: byte)
    requires NamesOk(h) && k != 0 && InOrder(h, k) && PumpOk(v, h, index) && !Answered(v, h, index).twice
    ensures InOrder(Answered(v, h, index), k)
  {
    hide NamesOk, InOrder, Usable, TargetThere, Hear, Listened, Reacted;
    var r := Hear(v, h, index);
    ListenedKeepsNames(h, index, r);
    ListenedInOrder(h, index, r, k);
    if OrderOf(r.got).Some? {
      ReactedInOrder(v, Listened(h, index, r), OrderOf(r.got).value, k);
    }
  }

  lemma PumpKeepsOrder(v: Variant, h: Host, index: map<int, nat>, k: byte)
    requires NamesOk(h) && k != 0 && InOrder(h, k) && PumpTable(Conns(h.table), index)
    requires PumpOk(v, h, index) && !Pumped(v, h, index).twice
    ensures InOrder(Pumped(v, h, index), k)
  {
    hide NamesOk, InOrder, PumpTable, MaySend, SameButBuffers, InAfter, Answered, WithOrders, Sending, Usable,
      SentConns, PumpOk;
    var h1 := Answered(v, h, index);
    var (s, p) := Sending(v, h1, index);
    OrdersSame(v, h1, s);
    AnsweredInOrder(v, h, index, k);
    AnswerKeepsTable(v, h, index);
    SendingObeysFlags(v, h1, index);
    SameInOrder(h1, WithOrders(v, h1, s), k);
    SentSame(Conns(h1.table), index, p);
    FramedInOrder(WithOrders(v, h1, s), index, p, SentConns(Conns(h1.table), index, p), k);
  }

  lemma SameInOrder(h: Host, h': Host, k: byte)
    requires InOrder(h, k) && h'.table == h.table && h'.log == h.log
    ensures InOrder(h', k)
  {
  }

  lemma NamedInOrder(h: Host, s: Sorted, k: byte)
    requires |s.conns| == |h.table| && Matches(s.conns, h.Phase(k), k)
    ensures InOrder(Named(h, s), k)
  {
  }

  lemma AnnouncedInOrder(h: Host, s: Sorted, k: byte)
    requires k != 0 && |h.queue| <= QUEUE_SIZE && |s.conns| == |h.table|
    requires Partition(s.free, s.conns) && IndexOk(s.conns, s.index)
    requires Matches(s.conns, h.Phase(k), k)
    ensures InOrder(Announced(Named(h, s), HandledAll(h, s)), k)
  {
    hide HandleUpTo, Partition, PhaseAfter, Matches;
    var d0 := Handled(s.conns, s.free, s.index, [], QUEUE_SIZE - |h.queue|, false);
    SaysNothing(h.Phase(k), k);
    PartitionHolds(s.free, s.conns, k);
    HandleMatches(d0, true, MAX_STACK_SIZE, h.Phase(k), k);
    PhaseConcat(Idle, h.log, Emits(HandledAll(h, s).said), k);
  }

  lemma UpdateKeepsOrder(v: Variant, h: Host, u: PollInput, k: byte)
    requires NamesOk(h) && PollOk(h.table, u) && k != 0 && InOrder(h, k)
    requires !Update(v, h, u).twice
    ensures InOrder(Update(v, h, u), k)
  {
    hide Partition, IndexOk, PollOk, Poll, Stops, HandledAll, PumpOk, Pumped, Matches, PhaseAfter,
      PumpTable, SortUpTo, Host.Phase;
    PollKeepsOrder(h, u, k);
    PollKeepsNames(h, u);
    var h1 := Polled(h, u);
    if u.completes {
      SortedNames(h, u);
      PollLeavesNoneDeleted(h.table, u);
      var cs := Conns(h1.table);
      SortMatches(cs, h1.free, |cs|, h1.Phase(k), k);
      var s := Sort(cs, h1.free);
      AnnouncedInOrder(h1, s, k);
      AnnouncedTable(h1, s);
      HandledNames(h1, s);
      AnnouncedFits(h1, s);
      var d := HandledAll(h1, s);
      var h3 := Announced(Named(h1, s), d);
      NamedInOrder(h1, s, k);
      SameInOrder(h3, h3.(strayed := true), k);
      if !Stops(s) && !d.again && PumpOk(v, h3, d.index) {
        PumpKeepsOrder(v, h3, d.index, k);
      }
    }
  }

  // ---------------------------------------------------------------- the order on the wire

  /** The items among the first `n` events. */
  function Emitted(log: seq<Event>, n: nat): seq<Item>
    requires n <= |log|
  {
    if n == 0 then []
    else Emitted(log, n - 1) + if log[n - 1].Emit? then [log[n - 1].item] else []
  }

  /** What was put in line is what went into the tunnel, followed by what waits in the queue. */
  ghost predicate InLine(h: Host) {
    Emitted(h.log, |h.log|) == h.wire + Orders(h.queue)
  }

  lemma {:induction false} EmittedFront(a: seq<Event>, b: seq<Event>, n: nat)
    requires n <= |a|
    ensures Emitted(a + b, n) == Emitted(a, n)
  {
    if n > 0 {
      EmittedFront(a, b, n - 1);
    }
  }

  lemma {:induction false} EmittedMore(log: seq<Event>, items: seq<Item>, n: nat)
    requires n <= |items|
    ensures Emitted(log + FrameEvents(items), |log| + n) == Emitted(log, |log|) + items[..n]
  {
    if n == 0 {
      EmittedFront(log, FrameEvents(items), |log|);
    } else {
      EmittedMore(log, items, n - 1);
      assert items[..n - 1] + [items[n - 1]] == items[..n];
    }
  }

  lemma EmittedAll(log: seq<Event>, items: seq<Item>)
    ensures var more := log + FrameEvents(items);
            Emitted(more, |more|) == Emitted(log, |log|) + items
  {
    EmittedMore(log, items, |items|);
    assert items[..|items|] == items;
  }

  lemma OrdersConcat(a: seq<Command>, b: seq<Command>)
    ensures Orders(a + b) == Orders(a) + Orders(b) && Emits(a) == FrameEvents(Orders(a))
  {
  }

  lemma AnnouncedInLine(h: Host, d: Handled)
    requires InLine(h) && |d.conns| == |h.table|
    ensures InLine(Announced(h, d))
  {
    hide Emitted, Orders, Emits;
    OrdersConcat(h.queue, d.said);
    OrdersConcat(d.said, []);
    EmittedAll(h.log, Orders(d.said));
  }

  lemma ReactedInLine(v: Variant, h: Host, c: Command)
    requires InLine(h) && FromPeer(c)
    ensures InLine(Reacted(v, h, c))
  {
    hide PeerCloses, OnCommand, ReleasesTwice;
    QueueKept(v, ControlOf(h), c);
    EmittedFront(h.log, PeerEvents(ControlOf(h), c), |h.log|);
  }

  lemma OrdersInLine(v: Variant, h: Host, s: Sent)
    requires s.n <= |h.queue| && (s.blocked ==> s.n < |h.queue|) && !WithOrders(v, h, s).lost
    ensures var e := WithOrders(v, h, s); e.wire + Orders(e.queue) == h.wire + Orders(h.queue)
  {
    hide Orders;
    OrdersConcat(h.queue[..s.n], h.queue[s.n..]);
    assert h.queue[..s.n] + h.queue[s.n..] == h.queue;
  }

  lemma NoOrders(q: seq<Command>, n: nat)
    requires n == |q|
    ensures Orders(q[n..]) == [] && q[n..] == []
  {
  }

  /** What was read out of the tunnel was not put in line. */
  lemma {:induction false} EmittedTakes(log: seq<Event>, got: seq<Atom>, n: nat)
    requires n <= |got|
    ensures Emitted(log + Takes(got), |log| + n) == Emitted(log, |log|)
  {
    if n == 0 {
      EmittedFront(log, Takes(got), |log|);
    } else {
      EmittedTakes(log, got, n - 1);
    }
  }

  lemma ListenedInLine(h: Host, index: map<int, nat>, r: Received)
    requires InLine(h) && Usable(Conns(h.table), index)
    ensures InLine(Listened(h, index, r))
  {
    hide Emitted, Orders, Usable, HeardConns;
    EmittedTakes(h.log, r.got, |r.got|);
  }

  lemma AnsweredInLine(v: Variant, h: Host, index: map<int, nat>)
    requires InLine(h) && PumpOk(v, h, index)
    ensures InLine(Answered(v, h, index))
  {
    hide InLine, Usable, TargetThere, Hear, Listened, Reacted;
    var r := Hear(v, h, index);
    ListenedInLine(h, index, r);
    if OrderOf(r.got).Some? {
      ReactedInLine(v, Listened(h, index, r), OrderOf(r.got).value);
    }
  }

  lemma PumpKeepsLine(v: Variant, h: Host, index: map<int, nat>)
    requires InLine(h) && PumpOk(v, h, index) && !Pumped(v, h, index).lost
    ensures InLine(Pumped(v, h, index))
  {
    hide Emitted, MaySend, SentConns, Answered, FrameEvents, Sending, Usable, Orders, PumpOk;
    var h1 := Answered(v, h, index);
    AnsweredInLine(v, h, index);
    var (s, p) := Sending(v, h1, index);
    SendingObeysFlags(v, h1, index);
    EmittedAll(h1.log, p.items);
    OrdersInLine(v, h1, s);
    if s.n == |h1.queue| {
      NoOrders(h1.queue, s.n);
    }
  }

  lemma UpdateKeepsLine(v: Variant, h: Host, u: PollInput)
    requires InLine(h) && |h.queue| <= QUEUE_SIZE && PollOk(h.table, u) && !Update(v, h, u).lost
    ensures InLine(Update(v, h, u))
  {
    hide PollOk, Poll, Sort, Stops, HandledAll, PumpOk, Pumped, Emitted, Orders, Emits;
    var h1 := Polled(h, u);
    if u.completes {
      var s := Sort(Conns(h1.table), h1.free);
      if !Stops(s) {
        var d := HandledAll(h1, s);
        var h3 := Announced(Named(h1, s), d);
        AnnouncedInLine(Named(h1, s), d);
        if !d.again && PumpOk(v, h3, d.index) {
          PumpKeepsLine(v, h3, d.index);
        }
      }
    }
  }

  // ---------------------------------------------------------------- whole runs

  ghost predicate Good(h: Host, k: byte) {
    NamesOk(h) && InOrder(h, k)
  }

  lemma NextKeepsGood(v: Variant, h: Host, u: PollInput, k: byte)
    requires k != 0 && (h.twice || Good(h, k))
    ensures Next(v, h, u).twice || Good(Next(v, h, u), k)
  {
    hide Update, NamesOk, InOrder, PollOk;
    MarksStay(v, h, u);
    if !h.strayed && !Next(v, h, u).twice && PollOk(h.table, u) && |h.queue| <= QUEUE_SIZE {
      UpdateKeepsNames(v, h, u);
      UpdateKeepsOrder(v, h, u, k);
    }
  }

  lemma NextKeepsLine(v: Variant, h: Host, u: PollInput)
    requires h.lost || InLine(h)
    ensures Next(v, h, u).lost || InLine(Next(v, h, u))
  {
    hide Update, InLine, PollOk;
    MarksStay(v, h, u);
    if !h.strayed && !Next(v, h, u).lost && PollOk(h.table, u) && |h.queue| <= QUEUE_SIZE {
      UpdateKeepsLine(v, h, u);
    }
  }

  lemma StartIsGood(h: Host, k: byte)
    requires IsStart(h) && k != 0
    ensures Good(h, k) && InLine(h)
  {
    hide Partition, InitialIds;
    StartNames(h);
    assert !Holds(Conns(h.table)[0], k);
  }

  lemma RunKeepsGood(v: Variant, h: Host, us: seq<PollInput>, k: byte)
    requires IsStart(h) && k != 0
    ensures Run(v, h, us).twice || Good(Run(v, h, us), k)
  {
    hide Next, Good;
    StartIsGood(h, k);
    forall x: Host, u | x.twice || Good(x, k)
      ensures Next(v, x, u).twice || Good(Next(v, x, u), k)
    {
      NextKeepsGood(v, x, u, k);
    }
    RunKeeps((x, u) => Next(v, x, u), (x: Host) => x.twice || Good(x, k), h, us, |us|);
  }

  lemma RunKeepsLine(v: Variant, h: Host, us: seq<PollInput>)
    requires IsStart(h)
    ensures Run(v, h, us).lost || InLine(Run(v, h, us))
  {
    hide Next, InLine, Good;
    StartIsGood(h, 1);
    forall x: Host, u | x.lost || InLine(x)
      ensures Next(v, x, u).lost || InLine(Next(v, x, u))
    {
      NextKeepsLine(v, x, u);
    }
    RunKeeps((x, u) => Next(v, x, u), (x: Host) => x.lost || InLine(x), h, us, |us|);
  }

  /** In every run that releases no identifier twice, also one that loses commands, what is said
      about an identifier keeps the order of the protocol. In every run that loses no command the
      tunnel with the queue behind it carries exactly what was said, in order. */
  lemma WireKeepsGrammar(v: Variant, h: Host, us: seq<PollInput>, k: byte)
    requires IsStart(h) && k != 0
    ensures
      var e := Run(v, h, us);
      && (!e.twice ==> !e.Phase(k).Broken? && Matches(Conns(e.table), e.Phase(k), k))
      && (!e.lost ==> Emitted(e.log, |e.log|) == e.wire + Orders(e.queue))
  {
    hide Run, NamesOk, PhaseAfter, Emitted, Matches;
    RunKeepsGood(v, h, us, k);
    RunKeepsLine(v, h, us);
    var e := Run(v, h, us);
    if !e.twice {
      MatchesUnbroken(Conns(e.table), e.Phase(k), k);
    }
  }

  /** With the corrections this holds of every run. */
  lemma CorrectedWireKeepsGrammar(h: Host, us: seq<PollInput>, k: byte)
    requires IsStart(h) && k != 0
    ensures
      var e := Run(Corrected, h, us);
      && !e.Phase(k).Broken?
      && Emitted(e.log, |e.log|) == e.wire + Orders(e.queue)
      && Partition(e.free, Conns(e.table))
  {
    hide Run, Partition, PhaseAfter, Emitted;
    CorrectedRunsNeverFail(h, us);
    WireKeepsGrammar(Corrected, h, us, k);
    IdentifiersArePartitioned(Corrected, h, us);
  }
}
