/** Runs of the connecting side: it gives out no identifiers, but connects when the peer says NEW,
    and answers. The sockets and the peer are arbitrary inputs, and so is what a connect comes to. */
module Answering {
  import opened Basics
  import opened Ring
  import opened Framing
  import opened Wire
  import opened Connections
  import opened Slots
  import opened Receiver
  import opened ReadBack
  import opened Scheduling
  import opened Protocol
  import opened Identifiers
  import opened Duties
  import opened Grammar
  import opened Progress
  import Accounts
  import opened WireOrder
  import opened Runs
  import opened H = Host

  /** The fields are those of the other side; the stack is never used. The mark stays: a NEW that
      concerned no connection was not answered, because the queue was full or a connection with the
      identifier, given up already, had not left the table. */
  datatype Side = Side(host: Host, mute: bool)

  /** A poll, and what a connect would come to if there is one. */
  datatype Turn = Turn(poll: PollInput, made: Option<Slot>)

  // ---------------------------------------------------------------- the steps

  /** What `cm_connect` makes. */
  predicate IsConnected(s: Slot, id: byte) {
    && s.conn.Valid() && s.sock >= 0 && s == AddedSlot(s.conn, s.sock) && s.conn.id == id as int
    && s.conn.state == s.conn.inState == s.conn.outState == NO_FLAGS
    && s.conn.inb.length == 0 && s.conn.outb.length == 0
  }

  /** A connect may fail, and does if the table is full. */
  function Connected(h: Host, id: byte, made: Option<Slot>): (s: Option<Slot>)
    ensures s.Some? ==> IsConnected(s.value, id)
  {
    if made.Some? && IsConnected(made.value, id) && |h.table| < MAX_SLOTS then made else None
  }

  function ConnOf(s: Option<Slot>): Option<Conn> {
    if s.Some? then Some(s.value.conn) else None
  }

  /** `on_command` on this side. */
  function Replied(v: Variant, h: Host, c: Command, s: Option<Slot>): (k: Control)
    ensures |h.table| <= |k.conns| <= |h.table| + One(s.Some?) && |h.queue| <= |k.queue| <= |h.queue| + 1
  {
    OnCommand(v, false, ControlOf(h), c, ConnOf(s))
  }

  /** The command that was queued, or the end of a connection. */
  function ReplyEvents(v: Variant, h: Host, c: Command, s: Option<Slot>): seq<Event> {
    var k := Replied(v, h, c, s);
    if |k.queue| > |h.queue| then [Emit(Order(k.queue[|h.queue|]))] else PeerEvents(ControlOf(h), c)
  }

  predicate Held(cs: seq<Conn>, k: int) {
    exists i :: 0 <= i < |cs| && Holds(cs[i], k)
  }

  function ReactedHere(v: Variant, x: Side, c: Command, made: Option<Slot>): Side {
    var h := x.host;
    var s := Connected(h, c.arg, made);
    var k := Replied(v, h, c, s);
    Side(h.(table := WithConns(h.table, k.conns[..|h.table|])
                     + (if |k.conns| > |h.table| then [s.value] else []),
            free := k.free, queue := k.queue, log := h.log + ReplyEvents(v, h, c, s)),
         x.mute || (c.cmd == CMD_NEW && !Held(Conns(h.table), c.arg) && |k.queue| == |h.queue|))
  }

  /** As on the other side, but any command may be read. */
  predicate PumpOkHere(v: Variant, h: Host, index: map<int, nat>) {
    && Usable(Conns(h.table), index) && (TargetThere(h, index) || Conns(h.table)[index[0]].inb.length == 0)
    && var r := Hear(v, h, index); r.fault.NoFault? || r.fault.WroteOverData?
  }

  function AnsweredHere(v: Variant, x: Side, index: map<int, nat>, made: Option<Slot>): (x': Side)
    requires PumpOkHere(v, x.host, index)
    ensures Usable(Conns(x'.host.table), index)
  {
    var r := Hear(v, x.host, index);
    var x0 := x.(host := Listened(x.host, index, r));
    HeardUsable(Conns(x.host.table), index, r);
    var c := OrderOf(r.got);
    if c.Some? then ReactedUsableHere(v, x0, index, c.value, made); ReactedHere(v, x0, c.value, made) else x0
  }

  lemma ReactedUsableHere(v: Variant, x: Side, index: map<int, nat>, c: Command, made: Option<Slot>)
    requires Usable(Conns(x.host.table), index)
    ensures Usable(Conns(ReactedHere(v, x, c, made).host.table), index)
  {
    hide Find, ReplyEvents, Held, Conn.Valid, IsConnected;
    var cs, ds := Conns(x.host.table), Conns(ReactedHere(v, x, c, made).host.table);
    forall i | 0 <= i < |ds|
      ensures ds[i].Valid()
    {
      if i < |cs| {
        assert cs[i].Valid();
      }
      ReactedValid(v, x, c, made, i);
    }
  }

  lemma ReactedValid(v: Variant, x: Side, c: Command, made: Option<Slot>, i: nat)
    requires i < |ReactedHere(v, x, c, made).host.table|
    requires i < |x.host.table| ==> x.host.table[i].conn.Valid()
    ensures ReactedHere(v, x, c, made).host.table[i].conn.Valid()
  {
    hide Find, ReplyEvents, Held, Ring.Valid;
  }

  function PumpedHere(v: Variant, x: Side, index: map<int, nat>, made: Option<Slot>): Side
    requires PumpOkHere(v, x.host, index)
  {
    var x1 := AnsweredHere(v, x, index, made);
    var (s, p) := Sending(v, x1.host, index);
    x1.(host := WithFrames(WithOrders(v, x1.host, s), p, SentConns(Conns(x1.host.table), index, p)))
  }

  function HandledHere(h: Host, s: Sorted): (d: Handled)
    requires |h.queue| <= QUEUE_SIZE && forall k :: k in s.index ==> s.index[k] < |s.conns|
    ensures d.Valid() && |d.conns| == |s.conns|
  {
    HandleUpTo(Handled(s.conns, s.free, s.index, [], QUEUE_SIZE - |h.queue|, false), false, MAX_STACK_SIZE)
  }

  function BehindHere(v: Variant, x: Side, made: Option<Slot>): Side
    requires |x.host.queue| <= QUEUE_SIZE
  {
    var h := x.host;
    var s := Sort(Conns(h.table), h.free);
    var h2 := Named(h, s);
    if Stops(s) then x.(host := h2)
    else
      var d := HandledHere(h, s);
      var h3 := Announced(h2, d);
      if d.again then x.(host := h3)
      else if !PumpOkHere(v, h3, d.index) then x.(host := h3.(strayed := true))
      else PumpedHere(v, x.(host := h3), d.index, made)
  }

  /** Nobody connects to this side. */
  predicate TurnOk(h: Host, u: Turn) {
    !h.strayed && PollOk(h.table, u.poll) && u.poll.accepted.None? && |h.queue| <= QUEUE_SIZE
  }

  /** `update`. */
  function NextHere(v: Variant, x: Side, u: Turn): Side {
    if !TurnOk(x.host, u) then x
    else
      var h1 := Polled(x.host, u.poll);
      if u.poll.completes then BehindHere(v, x.(host := h1), u.made) else x.(host := h1)
  }

  function RunHere(v: Variant, x: Side, us: seq<Turn>): Side {
    RunTo((y, u) => NextHere(v, y, u), x, us, |us|)
  }

  // ---------------------------------------------------------------- the order on this side

  /** The phase of an identifier, or the peer has said NEW and is not answered yet. */
  datatype Stage = In(phase: Phase) | Asked

  /** The peer says NEW. */
  predicate Asks(e: Event, k: byte) {
    e == Event.Take(Given(Command(CMD_NEW, k)))
  }

  /** This side says something about `k`. */
  predicate Says(e: Event, k: byte) {
    IsData(e, k) || (e.Emit? && e.item.Order? && e.item.command.arg == k)
  }

  /** A NEW for an identifier in use is passed over; otherwise the next thing said about it is ACK,
      with which a generation starts, or CLOSE. In a generation the order is that of the other side,
      and this side never says NEW, nor ACK on its own. */
  function Step(st: Stage, e: Event, k: byte): Stage {
    if st.Asked? then
      if IsOrder(e, CMD_ACK, k) then In(Phase.Open(false, false))
      else if IsOrder(e, CMD_CLOSE, k) then In(Idle)
      else if Says(e, k) || e == PeerClose(k) then In(Broken) else st
    else if Asks(e, k) && st.phase.Idle? then Asked
    else if IsOrder(e, CMD_NEW, k) then In(Broken)
    else In(Advance(st.phase, e, k))
  }

  function StageAfter(st: Stage, log: seq<Event>, n: nat, k: byte): Stage
    requires n <= |log|
  {
    if n == 0 then st else Step(StageAfter(st, log, n - 1, k), log[n - 1], k)
  }

  function StageOf(h: Host, k: byte): Stage {
    StageAfter(In(Idle), h.log, |h.log|, k)
  }

  lemma {:induction false} StageOfFront(st: Stage, a: seq<Event>, b: seq<Event>, n: nat, k: byte)
    requires n <= |a|
    ensures StageAfter(st, a + b, n, k) == StageAfter(st, a, n, k)
  {
    hide Step;
    if n > 0 {
      StageOfFront(st, a, b, n - 1, k);
    }
  }

  lemma {:induction false} StageGoesOn(st: Stage, a: seq<Event>, b: seq<Event>, n: nat, m: nat, k: byte)
    requires n <= |b| && m == |a| + n
    ensures StageAfter(st, a + b, m, k) == StageAfter(StageAfter(st, a, |a|, k), b, n, k)
  {
    hide Step;
    if n == 0 {
      StageOfFront(st, a, b, |a|, k);
    } else {
      StageGoesOn(st, a, b, n - 1, m - 1, k);
    }
  }

  lemma StageMore(h: Host, h': Host, es: seq<Event>, k: byte)
    requires h'.log == h.log + es
    ensures StageOf(h', k) == StageAfter(StageOf(h, k), es, |es|, k)
  {
    StageGoesOn(In(Idle), h.log, es, |es|, |h'.log|, k);
  }

  /** Neither side says NEW. */
  predicate Plain(e: Event, k: byte) {
    !Asks(e, k) && !IsOrder(e, CMD_NEW, k)
  }

  /** Then the phase is that of the other side. */
  lemma {:induction false} StageIsPhase(ph: Phase, es: seq<Event>, n: nat, k: byte)
    requires n <= |es| && forall i :: 0 <= i < n ==> Plain(es[i], k)
    ensures StageAfter(In(ph), es, n, k) == In(PhaseAfter(ph, es, n, k))
  {
    hide Advance, Asks;
    if n > 0 {
      StageIsPhase(ph, es, n - 1, k);
    }
  }

  lemma OneStep(st: Stage, e: Event, k: byte)
    ensures StageAfter(st, [e], 1, k) == Step(st, e, k)
  {
    assert StageAfter(st, [e], 0, k) == st;
  }

  // ---------------------------------------------------------------- the log tells of the answers

  predicate IsAnswer(e: Event, k: byte) {
    IsOrder(e, CMD_ACK, k) || IsOrder(e, CMD_CLOSE, k)
  }

  /** The NEW at place `i`, for an identifier not in use, and its answer at place `j`: nothing else is
      said about the identifier in between. */
  ghost predicate Answers(log: seq<Event>, i: nat, j: nat, k: byte) {
    && i < j < |log| && Asks(log[i], k) && StageAfter(In(Idle), log, i, k) == In(Idle) && IsAnswer(log[j], k)
    && forall m :: i < m < j ==> !Says(log[m], k)
  }

  lemma {:induction false} BrokenStaysHere(log: seq<Event>, i: nat, n: nat, k: byte)
    requires i <= n <= |log| && StageAfter(In(Idle), log, i, k) == In(Broken)
    ensures StageAfter(In(Idle), log, n, k) == In(Broken)
  {
    if i < n {
      BrokenStaysHere(log, i, n - 1, k);
    }
  }

  /** While the peer is not answered nothing is said about the identifier. */
  lemma {:induction false} AskedUntil(log: seq<Event>, i: nat, n: nat, k: byte)
    requires i < n <= |log| && StageAfter(In(Idle), log, i + 1, k).Asked?
    requires forall m :: i < m < n ==> !IsAnswer(log[m], k)
    requires StageAfter(In(Idle), log, |log|, k) != In(Broken)
    ensures StageAfter(In(Idle), log, n, k).Asked? && forall m :: i < m < n ==> !Says(log[m], k)
  {
    if i + 1 < n {
      AskedUntil(log, i, n - 1, k);
      if !StageAfter(In(Idle), log, n, k).Asked? {
        BrokenStaysHere(log, n, |log|, k);
      }
    }
  }

  /** In an unbroken log with no question open every NEW for an identifier not in use is answered. */
  lemma AskedIsAnswered(log: seq<Event>, i: nat, k: byte)
    requires i < |log| && Asks(log[i], k) && StageAfter(In(Idle), log, i, k) == In(Idle)
    requires var st := StageAfter(In(Idle), log, |log|, k); st.In? && !st.phase.Broken?
    ensures exists j :: Answers(log, i, j, k)
  {
    assert StageAfter(In(Idle), log, i + 1, k).Asked?;
    if forall m :: i < m < |log| ==> !IsAnswer(log[m], k) {
      AskedUntil(log, i, |log|, k);
    } else {
      var j := FirstAnswer(log, i, k);
      AskedUntil(log, i, j, k);
      assert Answers(log, i, j, k);
    }
  }

  lemma FirstAnswer(log: seq<Event>, i: nat, k: byte) returns (j: nat)
    requires exists m :: i < m < |log| && IsAnswer(log[m], k)
    ensures i < j < |log| && IsAnswer(log[j], k) && forall m :: i < m < j ==> !IsAnswer(log[m], k)
  {
    j := i + 1;
    while j < |log| && !IsAnswer(log[j], k)
      invariant i < j <= |log| && forall m :: i < m < j ==> !IsAnswer(log[m], k)
    {
      j := j + 1;
    }
  }

  /** ACK is never said but as such an answer. */
  lemma AckIsAnswer(log: seq<Event>, j: nat, k: byte)
    requires j < |log| && IsOrder(log[j], CMD_ACK, k) && StageAfter(In(Idle), log, |log|, k) != In(Broken)
    ensures exists i :: Answers(log, i, j, k)
  {
    if !StageAfter(In(Idle), log, j, k).Asked? {
      assert StageAfter(In(Idle), log, j + 1, k) == In(Broken);
      BrokenStaysHere(log, j + 1, |log|, k);
    } else {
      var i := AskedSince(log, j, k);
      assert Answers(log, i, j, k);
    }
  }

  lemma {:induction false} AskedSince(log: seq<Event>, j: nat, k: byte) returns (i: nat)
    requires j <= |log| && StageAfter(In(Idle), log, j, k).Asked?
    ensures i < j && Asks(log[i], k) && StageAfter(In(Idle), log, i, k) == In(Idle)
    ensures forall m :: i < m < j ==> !Says(log[m], k)
  {
    if StageAfter(In(Idle), log, j - 1, k).Asked? {
      i := AskedSince(log, j - 1, k);
    } else {
      i := j - 1;
    }
  }

  // ---------------------------------------------------------------- identifiers

  /** Every connection has an identifier, all of them different, and none waits to be announced. */
  predicate AllNamedHere(cs: seq<Conn>) {
    DistinctIds(cs) && forall i :: 0 <= i < |cs| ==> 0 <= cs[i].id <= MAX_STACK_SIZE && !cs[i].state.isNew
  }

  predicate SameNames(c: Conn, d: Conn) {
    d.id == c.id && (d.state.isNew ==> c.state.isNew)
  }

  lemma NamesStay(cs: seq<Conn>, ds: seq<Conn>)
    requires AllNamedHere(cs) && |ds| == |cs| && forall i :: 0 <= i < |cs| ==> SameNames(cs[i], ds[i])
    ensures AllNamedHere(ds)
  {
  }

  lemma DistinctHolds(cs: seq<Conn>, k: int)
    requires DistinctIds(cs)
    ensures HeldOnce(cs, k)
  {
  }

  lemma ShrinkNames(t: seq<Slot>)
    requires AllNamedHere(Conns(t))
    ensures AllNamedHere(Conns(Shrink(CloseAll(t))))
  {
    hide ShouldDelete, CloseSlot;
    var u := CloseAll(t);
    forall i | 0 <= i < |t|
      ensures SameNames(t[i].conn, u[i].conn)
    {
      CloseSlotNames(t[i]);
    }
    NamesStay(Conns(t), Conns(u));
    var places := KeptPlaces(u, |u|);
    var ds := Conns(Shrink(u));
    assert forall i :: 0 <= i < |ds| ==> ds[i] == Conns(u)[places[i]];
  }

  lemma CloseSlotNames(s: Slot)
    ensures SameNames(s.conn, CloseSlot(s).conn)
  {
  }

  lemma DoIoNames(s: Slot, io: Io)
    requires s.conn.Valid() && Slots.CanRead(s.conn, io.rd) && CanWrite(s.conn, io.wr)
    ensures SameNames(s.conn, DoIo(s, io).conn)
  {
    hide KeepsBytes, DoIo;
    DoIoEvolves(s, io);
  }

  lemma PollNames(t: seq<Slot>, p: PollInput)
    requires PollOk(t, p) && p.accepted.None? && AllNamedHere(Conns(t))
    ensures AllNamedHere(Conns(Poll(t, p).table))
  {
    hide AllNamedHere, Arm, CloseAll, Shrink, DoIo, Slots.CanRead, CanWrite;
    ShrinkNames(t);
    assert Conns(Armed(t)) == Conns(Shrink(CloseAll(t)));
    if p.completes {
      var a, u := Armed(t), Served(t, p);
      forall i | 0 <= i < |a|
        ensures SameNames(Conns(a)[i], Conns(u)[i])
      {
        DoIoNames(a[i], p.ios[i]);
      }
      NamesStay(Conns(a), Conns(u));
      ShrinkNames(u);
    }
  }

  /** `sort_connections` finds every connection named, and puts it into the table. */
  lemma {:induction false} SortFindsNames(cs: seq<Conn>, free: seq<int>, n: nat)
    requires n <= |cs| && AllNamedHere(cs) && NoneDeleted(cs)
    ensures
      var s := SortUpTo(cs, free, n);
      s.conns == cs && s.free == free && IndexOk(cs, s.index) && Filled(cs, s.index, n)
  {
    if n > 0 {
      SortFindsNames(cs, free, n - 1);
    }
  }

  lemma {:induction false} HandleNames(h: Handled, n: nat)
    requires h.Valid() && AllNamedHere(h.conns)
    ensures AllNamedHere(HandleUpTo(h, false, n).conns)
  {
    hide React;
    if n > 0 {
      HandleNames(h, n - 1);
      var g := HandleUpTo(h, false, n - 1);
      if !g.again && n in g.index {
        ReactNames(g.conns[g.index[n]], g.room - |g.said|);
        NamesStay(g.conns, HandleStep(g, false, n).conns);
      }
    }
  }

  lemma ReactNames(c: Conn, room: nat)
    ensures SameNames(c, React(c, room).conn)
  {
  }

  /** NEW is never said. */
  lemma ReactSaysNoNew(c: Conn, room: nat)
    requires !c.state.isNew
    ensures CMD_NEW !in React(c, room).said
  {
  }

  lemma {:induction false} HandleSaysNoNew(h: Handled, n: nat, k: byte)
    requires h.Valid() && AllNamedHere(h.conns) && Command(CMD_NEW, k) !in h.said
    ensures Command(CMD_NEW, k) !in HandleUpTo(h, false, n).said
  {
    hide React;
    if n > 0 {
      HandleSaysNoNew(h, n - 1, k);
      HandleNames(h, n - 1);
      var g := HandleUpTo(h, false, n - 1);
      if !g.again && n in g.index {
        ReactSaysNoNew(g.conns[g.index[n]], g.room - |g.said|);
      }
    }
  }

  // ---------------------------------------------------------------- every step keeps the order

  /** Between updates: the identifiers are distinct, and nobody waits for an answer who was not
      passed over. */
  ghost predicate InOrderHere(x: Side, k: byte) {
    && AllNamedHere(Conns(x.host.table)) && |x.host.queue| <= QUEUE_SIZE
    && (x.mute || Settled(x.host, k))
  }

  ghost predicate Settled(h: Host, k: byte) {
    var st := StageOf(h, k);
    st.In? && Matches(Conns(h.table), st.phase, k)
  }

  lemma SettledMore(h: Host, e: Host, es: seq<Event>, k: byte)
    requires Settled(h, k) && e.log == h.log + es && forall i :: 0 <= i < |es| ==> Plain(es[i], k)
    requires Matches(Conns(e.table), PhaseAfter(StageOf(h, k).phase, es, |es|, k), k)
    ensures Settled(e, k)
  {
    hide Matches, Plain, StageAfter;
    StageMore(h, e, es, k);
    StageIsPhase(StageOf(h, k).phase, es, |es|, k);
  }

  lemma SameSettled(h: Host, e: Host, k: byte)
    requires Settled(h, k) && e.log == h.log && Matches(Conns(e.table), StageOf(h, k).phase, k)
    ensures Settled(e, k)
  {
  }

  lemma PollKeepsHere(x: Side, p: PollInput, k: byte)
    requires InOrderHere(x, k) && PollOk(x.host.table, p) && p.accepted.None? && k != 0
    ensures InOrderHere(x.(host := Polled(x.host, p)), k)
  {
    hide AllNamedHere, Poll, PollOk, Matches, StageAfter;
    PollNames(x.host.table, p);
    if !x.mute {
      PollKeepsMatches(x.host.table, p, StageOf(x.host, k).phase, k);
    }
  }

  lemma EmitsArePlain(said: seq<Command>, k: byte)
    requires Command(CMD_NEW, k) !in said
    ensures forall i :: 0 <= i < |said| ==> Plain(Emits(said)[i], k)
  {
  }

  lemma HandleKeepsHere(x: Side, s: Sorted, k: byte)
    requires InOrderHere(x, k) && s.conns == Conns(x.host.table) && IndexOk(s.conns, s.index) && k != 0
    ensures InOrderHere(x.(host := Announced(x.host, HandledHere(x.host, s))), k)
  {
    hide AllNamedHere, Matches, HandleUpTo, StageAfter, PhaseAfter, Plain, HeldOnce, Emits;
    var h := x.host;
    var d0 := Handled(s.conns, s.free, s.index, [], QUEUE_SIZE - |h.queue|, false);
    var d := HandledHere(h, s);
    HandleNames(d0, MAX_STACK_SIZE);
    RoomStays(d0, false, MAX_STACK_SIZE);
    if !x.mute {
      var ph := StageOf(h, k).phase;
      HandleSaysNoNew(d0, MAX_STACK_SIZE, k);
      EmitsArePlain(d.said, k);
      SaysNothing(ph, k);
      HeldHere(s.conns, k);
      HandleMatches(d0, false, MAX_STACK_SIZE, ph, k);
      SettledMore(h, Announced(h, d), Emits(d.said), k);
    }
  }

  lemma HeldHere(cs: seq<Conn>, k: int)
    requires AllNamedHere(cs)
    ensures HeldOnce(cs, k)
  {
    DistinctHolds(cs, k);
  }

  // ---------------------------------------------------------------- the turn of the pump

  lemma TakesAsk(ph: Phase, got: seq<Atom>, k: byte)
    requires got != [] ==> NoOrder(got[..|got| - 1])
    ensures StageAfter(In(ph), Takes(got), |got|, k)
         == if OrderOf(got) == Some(Command(CMD_NEW, k)) && ph.Idle? then Asked else In(ph)
  {
    if got != [] {
      var n := |got| - 1;
      forall i | 0 <= i < n
        ensures Plain(Takes(got)[i], k)
      {
        assert !got[..n][i].Given?;
      }
      StageIsPhase(ph, Takes(got), n, k);
      TakesKeepPhase(got, n, ph, k);
    }
  }

  /** The stage of `k` behind a command that was read and not reacted to yet. */
  ghost predicate Heard(h: Host, c: Option<Command>, ph: Phase, k: byte) {
    && Matches(Conns(h.table), ph, k)
    && StageOf(h, k) == if c == Some(Command(CMD_NEW, k)) && ph.Idle? then Asked else In(ph)
  }

  lemma ListenedHere(v: Variant, h: Host, index: map<int, nat>, k: byte)
    requires PumpOkHere(v, h, index) && Settled(h, k)
    ensures
      var r := Hear(v, h, index);
      Heard(Listened(h, index, r), OrderOf(r.got), StageOf(h, k).phase, k)
  {
    hide Usable, TargetThere, Outs, Receiver.Receive, Matches, StageAfter, NoOrder, HeardConns;
    var r := Hear(v, h, index);
    var ph := StageOf(h, k).phase;
    NothingRead();
    ReceiveOrdersLast(v, Hearing(h, index));
    TakesAsk(ph, r.got, k);
    StageMore(h, Listened(h, index, r), Takes(r.got), k);
    HeardSame(Conns(h.table), index, r);
    SameOrder(Conns(h.table), HeardConns(Conns(h.table), index, r), ph, k);
  }

  lemma NothingRead()
    ensures NoOrder([])
  {
  }

  lemma ListenedNames(h: Host, index: map<int, nat>, r: Received)
    requires Usable(Conns(h.table), index) && AllNamedHere(Conns(h.table))
    ensures AllNamedHere(Conns(Listened(h, index, r).table))
  {
    hide Usable, AllNamedHere, HeardConns;
    HeardSame(Conns(h.table), index, r);
    NamesStay(Conns(h.table), HeardConns(Conns(h.table), index, r));
  }

  /** The connections behind the command are those of `on_command`. */
  lemma ReactedConns(v: Variant, x: Side, c: Command, made: Option<Slot>)
    ensures
      var s := Connected(x.host, c.arg, made);
      && Conns(ReactedHere(v, x, c, made).host.table) == Replied(v, x.host, c, s).conns
      && ReactedHere(v, x, c, made).host.log == x.host.log + ReplyEvents(v, x.host, c, s)
  {
    hide Find, ReplyEvents, Held;
    var h, s := x.host, Connected(x.host, c.arg, made);
    var k := Replied(v, h, c, s);
    LastIsMade(v, h, c, s);
    assert k.conns == k.conns[..|h.table|] + if |k.conns| > |h.table| then [s.value.conn] else [];
  }

  lemma LastIsMade(v: Variant, h: Host, c: Command, s: Option<Slot>)
    ensures var k := Replied(v, h, c, s); |k.conns| > |h.table| ==> s.Some? && k.conns[|h.table|] == s.value.conn
  {
    hide Find;
  }

  /** A command about a connection. */
  lemma OtherCommandHere(v: Variant, x: Side, c: Command, made: Option<Slot>, ph: Phase, k: byte)
    requires c.cmd != CMD_NEW && k != 0 && AllNamedHere(Conns(x.host.table)) && Heard(x.host, Some(c), ph, k)
    ensures
      var e := ReactedHere(v, x, c, made).host;
      Settled(e, k)
  {
    hide AllNamedHere, Matches, Find, StageAfter, PhaseAfter, PeerEvents, HeldOnce, Plain, Apply, ReactedHere,
      Replied, ReplyEvents;
    var h := x.host;
    HeldHere(Conns(h.table), k);
    OnCommandMatches(v, false, ControlOf(h), c, ph, k);
    ReactedConns(v, x, c, made);
    CommandKeepsSizes(v, h, c, Connected(h, c.arg, made));
    PeerIsPlain(ControlOf(h), c, k);
    SettledMore(h, ReactedHere(v, x, c, made).host, PeerEvents(ControlOf(h), c), k);
  }

  lemma PeerIsPlain(h: Control, c: Command, k: byte)
    ensures forall i :: 0 <= i < |PeerEvents(h, c)| ==> Plain(PeerEvents(h, c)[i], k)
  {
  }

  lemma CommandKeepsSizes(v: Variant, h: Host, c: Command, made: Option<Slot>)
    requires c.cmd != CMD_NEW
    ensures
      var k := Replied(v, h, c, made);
      && k == OnCommand(v, false, ControlOf(h), c, None) && k.queue == h.queue
      && ReplyEvents(v, h, c, made) == PeerEvents(ControlOf(h), c)
  {
    hide Find;
  }

  /** NEW for a connection that is held is passed over. */
  lemma KnownHere(v: Variant, x: Side, c: Command, made: Option<Slot>, ph: Phase, k: byte)
    requires c.cmd == CMD_NEW && k != 0 && Heard(x.host, Some(c), ph, k) && AllNamedHere(Conns(x.host.table))
    requires Held(Conns(x.host.table), c.arg)
    ensures Settled(ReactedHere(v, x, c, made).host, k)
  {
    hide Matches, StageAfter, ReactedHere, Replied, ReplyEvents;
    var h := x.host;
    var i :| 0 <= i < |h.table| && Holds(Conns(h.table)[i], c.arg);
    var s := Connected(h, c.arg, made);
    ReactedConns(v, x, c, made);
    KnownIsIgnored(v, h, c, s, i);
    assert h.log + [] == h.log;
    if c.arg == k {
      HolderAgrees(Conns(h.table), i, ph, k);
    }
    SameSettled(h, ReactedHere(v, x, c, made).host, k);
  }

  lemma KnownIsIgnored(v: Variant, h: Host, c: Command, s: Option<Slot>, i: nat)
    requires c.cmd == CMD_NEW && i < |h.table| && Conns(h.table)[i].id == c.arg as int
    ensures Replied(v, h, c, s) == ControlOf(h) && ReplyEvents(v, h, c, s) == []
  {
    hide Find;
  }

  /** NEW for an unknown identifier, with room for the answer. */
  lemma UnknownHere(v: Variant, x: Side, c: Command, made: Option<Slot>, ph: Phase, k: byte)
    requires c.cmd == CMD_NEW && k != 0 && Heard(x.host, Some(c), ph, k)
    requires Find(Conns(x.host.table), c.arg, 0).None? && |x.host.queue| < QUEUE_SIZE
    ensures Settled(ReactedHere(v, x, c, made).host, k)
  {
    hide StageAfter, Find, Matches, ReactedHere, Replied, ReplyEvents, Connected;
    var h := x.host;
    var s := Connected(h, c.arg, made);
    var e := ReactedHere(v, x, c, made).host;
    var cmd := if s.Some? then CMD_ACK else CMD_CLOSE;
    ReactedConns(v, x, c, made);
    UnknownReply(v, h, c, s);
    StageMore(h, e, [Emit(Order(Command(cmd, c.arg)))], k);
    OneStep(StageOf(h, k), Emit(Order(Command(cmd, c.arg))), k);
    NobodyYet(Conns(h.table), c.arg);
    if c.arg == k {
      NobodyIsIdle(Conns(h.table), ph, k);
      if s.Some? {
        NewAgrees(s.value.conn, k);
      }
    }
    AddedMatches(Conns(h.table), ConnOf(s), ph, StageOf(e, k).phase, k);
  }

  lemma NobodyYet(cs: seq<Conn>, id: byte)
    requires Find(cs, id, 0).None?
    ensures forall i :: 0 <= i < |cs| ==> !Holds(cs[i], id)
  {
  }

  lemma NobodyIsIdle(cs: seq<Conn>, ph: Phase, k: byte)
    requires Matches(cs, ph, k) && forall i :: 0 <= i < |cs| ==> !Holds(cs[i], k)
    ensures ph.Idle?
  {
  }

  lemma NewAgrees(c: Conn, k: byte)
    requires c.state == c.inState == c.outState == NO_FLAGS
    ensures Agrees(c, Phase.Open(false, false))
  {
  }

  lemma AddedMatches(cs: seq<Conn>, made: Option<Conn>, ph: Phase, ph': Phase, k: byte)
    requires Matches(cs, ph, k)
    requires made.Some? && Holds(made.value, k) ==>
      Agrees(made.value, ph') && forall i :: 0 <= i < |cs| ==> !Holds(cs[i], k)
    requires made.None? || !Holds(made.value, k) ==> ph' == ph
    ensures Matches(cs + (if made.Some? then [made.value] else []), ph', k)
  {
    hide Agrees;
    var ds := cs + (if made.Some? then [made.value] else []);
    assert forall i :: 0 <= i < |cs| ==> ds[i] == cs[i];
    if made.Some? && Holds(made.value, k) {
      assert Holds(ds[|cs|], k);
    }
  }

  lemma UnknownReply(v: Variant, h: Host, c: Command, s: Option<Slot>)
    requires c.cmd == CMD_NEW && Find(Conns(h.table), c.arg, 0).None? && |h.queue| < QUEUE_SIZE
    ensures
      var k := Replied(v, h, c, s);
      && ReplyEvents(v, h, c, s) == [Emit(Order(Command(if s.Some? then CMD_ACK else CMD_CLOSE, c.arg)))]
      && k.conns == Conns(h.table) + (if s.Some? then [s.value.conn] else [])
  {
    hide Find;
  }

  lemma ReactedNames(v: Variant, x: Side, c: Command, made: Option<Slot>)
    requires AllNamedHere(Conns(x.host.table)) && |x.host.queue| <= QUEUE_SIZE
    ensures
      var e := ReactedHere(v, x, c, made).host;
      AllNamedHere(Conns(e.table)) && |e.queue| <= QUEUE_SIZE
  {
    hide ReactedHere, Connected, AllNamedHere;
    var s := Connected(x.host, c.arg, made);
    ReactedConns(v, x, c, made);
    RepliedNames(v, x.host, c, s);
    QueueHere(v, x, c, made);
  }

  lemma QueueHere(v: Variant, x: Side, c: Command, made: Option<Slot>)
    requires |x.host.queue| <= QUEUE_SIZE
    ensures |ReactedHere(v, x, c, made).host.queue| <= QUEUE_SIZE
  {
    hide Find, ReplyEvents, Held, WithConns;
  }

  lemma RepliedNames(v: Variant, h: Host, c: Command, s: Option<Slot>)
    requires AllNamedHere(Conns(h.table)) && (s.Some? ==> IsConnected(s.value, c.arg))
    ensures AllNamedHere(Replied(v, h, c, s).conns)
  {
    hide Find;
    var cs, ds := Conns(h.table), Replied(v, h, c, s).conns;
    if c.cmd == CMD_NEW {
      NewIsAnswered(v, ControlOf(h), c.arg, ConnOf(s));
    }
  }

  /** A command of any kind. */
  lemma ReactedKeepsHere(v: Variant, x: Side, c: Command, made: Option<Slot>, ph: Phase, k: byte)
    requires AllNamedHere(Conns(x.host.table)) && |x.host.queue| <= QUEUE_SIZE && k != 0
    requires x.mute || Heard(x.host, Some(c), ph, k)
    ensures InOrderHere(ReactedHere(v, x, c, made), k)
  {
    hide AllNamedHere, Settled, Find, Heard, Held;
    ReactedNames(v, x, c, made);
    var e := ReactedHere(v, x, c, made);
    if !e.mute {
      if c.cmd != CMD_NEW {
        OtherCommandHere(v, x, c, made, ph, k);
      } else if Held(Conns(x.host.table), c.arg) {
        KnownHere(v, x, c, made, ph, k);
      } else {
        AnsweredAtOnce(v, x, c, made);
        UnknownHere(v, x, c, made, ph, k);
      }
    }
  }

  /** The mark says exactly that a NEW was not answered that concerned nobody. */
  lemma AnsweredAtOnce(v: Variant, x: Side, c: Command, made: Option<Slot>)
    requires c.cmd == CMD_NEW && !x.mute && !Held(Conns(x.host.table), c.arg) && |x.host.queue| <= QUEUE_SIZE
    ensures ReactedHere(v, x, c, made).mute
            <==> Find(Conns(x.host.table), c.arg, 0).Some? || |x.host.queue| == QUEUE_SIZE
  {
    hide Find, ReplyEvents, WithConns, Held;
  }

  lemma AnsweredKeepsHere(v: Variant, x: Side, index: map<int, nat>, made: Option<Slot>, k: byte)
    requires InOrderHere(x, k) && PumpOkHere(v, x.host, index) && k != 0
    ensures InOrderHere(AnsweredHere(v, x, index, made), k)
  {
    hide AllNamedHere, Settled, Heard, Usable, TargetThere, Hear, ReactedHere, HeardConns;
    var h := x.host;
    var r := Hear(v, h, index);
    var x0 := x.(host := Listened(h, index, r));
    ListenedNames(h, index, r);
    var ph := Idle;
    if !x.mute {
      PhaseNow(h, k);
      ph := StageOf(h, k).phase;
      ListenedHere(v, h, index, k);
    }
    if OrderOf(r.got).Some? {
      ReactedKeepsHere(v, x0, OrderOf(r.got).value, made, ph, k);
    } else if !x.mute {
      HeardNothing(x0.host, ph, k);
    }
  }

  lemma PhaseNow(h: Host, k: byte)
    requires Settled(h, k)
    ensures StageOf(h, k).In?
  {
  }

  lemma HeardNothing(h: Host, ph: Phase, k: byte)
    requires Heard(h, None, ph, k)
    ensures Settled(h, k)
  {
  }

  /** The table of the pump still leads to the same connections. */
  lemma TableHere(v: Variant, x: Side, index: map<int, nat>, made: Option<Slot>)
    requires PumpOkHere(v, x.host, index) && IndexOk(Conns(x.host.table), index)
    requires AllNamedHere(Conns(AnsweredHere(v, x, index, made).host.table))
    ensures PumpTable(Conns(AnsweredHere(v, x, index, made).host.table), index)
  {
    hide Usable, TargetThere, Hear, ReactedHere, HeardConns, DistinctIds;
    var r := Hear(v, x.host, index);
    var x0 := x.(host := Listened(x.host, index, r));
    HeardSame(Conns(x.host.table), index, r);
    if OrderOf(r.got).Some? {
      IdsStay(v, x0, OrderOf(r.got).value, made);
    }
  }

  lemma IdsStay(v: Variant, x: Side, c: Command, made: Option<Slot>)
    ensures
      var cs, ds := Conns(x.host.table), Conns(ReactedHere(v, x, c, made).host.table);
      |cs| <= |ds| && forall i :: 0 <= i < |cs| ==> ds[i].id == cs[i].id
  {
    hide Find, Connected, ReactedHere;
    ReactedConns(v, x, c, made);
  }

  lemma FramesArePlain(frames: seq<Item>, k: byte)
    requires forall i :: 0 <= i < |frames| ==> frames[i].Data?
    ensures forall i :: 0 <= i < |frames| ==> Plain(FrameEvents(frames)[i], k)
  {
  }

  lemma SentKeepsHere(v: Variant, x: Side, index: map<int, nat>, k: byte)
    requires InOrderHere(x, k) && Usable(Conns(x.host.table), index) && PumpTable(Conns(x.host.table), index) && k != 0
    ensures
      var (s, p) := Sending(v, x.host, index);
      var e := WithFrames(WithOrders(v, x.host, s), p, SentConns(Conns(x.host.table), index, p));
      InOrderHere(x.(host := e), k)
  {
    hide AllNamedHere, Matches, Usable, PumpTable, Sending, SentConns, StageAfter, PhaseAfter, FrameEvents, MaySend,
      Orders, Plain;
    var h := x.host;
    var cs := Conns(h.table);
    var (s, p) := Sending(v, h, index);
    OrdersSame(v, h, s);
    SentSame(cs, index, p);
    NamesStay(cs, SentConns(cs, index, p));
    if !x.mute {
      var ph := StageOf(h, k).phase;
      SendingObeysFlags(v, h, index);
      FramesKeepPhase(cs, index, p.items, |p.items|, ph, k);
      FramesArePlain(p.items, k);
      SameOrder(cs, SentConns(cs, index, p), ph, k);
      SettledMore(h, WithFrames(WithOrders(v, h, s), p, SentConns(cs, index, p)), FrameEvents(p.items), k);
    }
  }

  lemma PumpKeepsHere(v: Variant, x: Side, index: map<int, nat>, made: Option<Slot>, k: byte)
    requires InOrderHere(x, k) && PumpOkHere(v, x.host, index) && IndexOk(Conns(x.host.table), index) && k != 0
    ensures InOrderHere(PumpedHere(v, x, index, made), k)
  {
    hide AllNamedHere, Settled, Usable, IndexOk, AnsweredHere, PumpTable, PumpOkHere, Sending, SentConns, FrameEvents,
      Orders;
    AnsweredKeepsHere(v, x, index, made, k);
    TableHere(v, x, index, made);
    SentKeepsHere(v, AnsweredHere(v, x, index, made), index, k);
  }

  lemma BehindKeepsHere(v: Variant, x: Side, made: Option<Slot>, k: byte)
    requires InOrderHere(x, k) && NoneDeleted(Conns(x.host.table)) && k != 0
    ensures InOrderHere(BehindHere(v, x, made), k)
  {
    hide AllNamedHere, Settled, NoneDeleted, SortUpTo, Stops, HandledHere, PumpOkHere, PumpedHere, IndexOk;
    var h := x.host;
    var cs := Conns(h.table);
    SortFindsNames(cs, h.free, |cs|);
    var s := Sort(cs, h.free);
    var h2 := Named(h, s);
    SameHere(x, h2, k);
    if !Stops(s) {
      var y := x.(host := h2);
      HandleKeepsHere(y, s, k);
      SameHandledHere(h, h2, s);
      var d := HandledHere(h, s);
      var h3 := Announced(h2, d);
      SameHere(x.(host := h3), h3.(strayed := true), k);
      if !d.again && PumpOkHere(v, h3, d.index) {
        IndexIsHere(h, s);
        PumpKeepsHere(v, x.(host := h3), d.index, made, k);
      }
    }
  }

  lemma SameHandledHere(h: Host, h': Host, s: Sorted)
    requires |h.queue| <= QUEUE_SIZE && h'.queue == h.queue
    requires forall k :: k in s.index ==> s.index[k] < |s.conns|
    ensures HandledHere(h', s) == HandledHere(h, s)
  {
  }

  lemma IndexIsHere(h: Host, s: Sorted)
    requires |h.queue| <= QUEUE_SIZE && IndexOk(s.conns, s.index)
    ensures IndexOk(HandledHere(h, s).conns, HandledHere(h, s).index)
  {
    hide HandleUpTo;
    IndexStays(Handled(s.conns, s.free, s.index, [], QUEUE_SIZE - |h.queue|, false), false, MAX_STACK_SIZE);
  }

  lemma SameHere(x: Side, h: Host, k: byte)
    requires InOrderHere(x, k) && Conns(h.table) == Conns(x.host.table)
    requires h.queue == x.host.queue && h.log == x.host.log
    ensures InOrderHere(x.(host := h), k)
  {
    hide AllNamedHere, Matches;
  }

  lemma NextKeepsHere(v: Variant, x: Side, u: Turn, k: byte)
    requires InOrderHere(x, k) && k != 0
    ensures InOrderHere(NextHere(v, x, u), k)
  {
    hide AllNamedHere, Settled, NoneDeleted, Poll, PollOk, BehindHere;
    if TurnOk(x.host, u) {
      PollKeepsHere(x, u.poll, k);
      if u.poll.completes {
        PollLeavesNoneDeleted(x.host.table, u.poll);
        BehindKeepsHere(v, x.(host := Polled(x.host, u.poll)), u.made, k);
      }
    }
  }

  /** A new controller on this side: its table holds the tunnel. */
  predicate IsStartHere(x: Side) {
    && |x.host.table| == 1 && x.host.table[0].conn.id == 0 && !x.host.table[0].conn.state.isNew
    && x.host.queue == [] && x.host.log == [] && !x.mute
  }

  lemma RunKeepsHere(v: Variant, x: Side, us: seq<Turn>, k: byte)
    requires IsStartHere(x) && k != 0
    ensures InOrderHere(RunHere(v, x, us), k)
  {
    hide NextHere;
    assert !Holds(Conns(x.host.table)[0], k);
    forall y: Side, u | InOrderHere(y, k)
      ensures InOrderHere(NextHere(v, y, u), k)
    {
      NextKeepsHere(v, y, u, k);
    }
    RunKeeps((y, u) => NextHere(v, y, u), (y: Side) => InOrderHere(y, k), x, us, |us|);
  }

  /** In every run of the connecting side all identifiers in the table are different. As long as no
      NEW that concerned nobody was passed over: what is said about an identifier keeps the order of
      the protocol, every NEW for an identifier not in use is answered, by ACK or CLOSE, before
      anything else is said about it, and every ACK is such an answer. */
  lemma EveryNewIsAnswered(v: Variant, x: Side, us: seq<Turn>, k: byte)
    requires IsStartHere(x) && k != 0
    ensures
      var e := RunHere(v, x, us);
      var log := e.host.log;
      && DistinctIds(Conns(e.host.table))
      && (!e.mute ==>
            && StageOf(e.host, k).In? && Matches(Conns(e.host.table), StageOf(e.host, k).phase, k)
            && !StageOf(e.host, k).phase.Broken?
            && (forall i: nat ::
                  i < |log| && Asks(log[i], k) && StageAfter(In(Idle), log, i, k) == In(Idle) ==>
                    exists j :: Answers(log, i, j, k))
            && (forall j: nat :: j < |log| && IsOrder(log[j], CMD_ACK, k) ==> exists i :: Answers(log, i, j, k)))
  {
    hide RunHere, Matches, StageAfter, Asks, Answers;
    RunKeepsHere(v, x, us, k);
    var e := RunHere(v, x, us);
    var log := e.host.log;
    if !e.mute {
      MatchesUnbroken(Conns(e.host.table), StageOf(e.host, k).phase, k);
      forall i: nat | i < |log| && Asks(log[i], k) && StageAfter(In(Idle), log, i, k) == In(Idle)
        ensures exists j :: Answers(log, i, j, k)
      {
        AskedIsAnswered(log, i, k);
      }
      forall j: nat | j < |log| && IsOrder(log[j], CMD_ACK, k)
        ensures exists i :: Answers(log, i, j, k)
      {
        AckIsAnswer(log, j, k);
      }
    }
  }

  // ---------------------------------------------------------------- what a turn must do

  lemma StillUnknown(cs: seq<Conn>, ds: seq<Conn>, id: byte)
    requires Find(cs, id, 0).None? && |ds| == |cs| && forall i :: 0 <= i < |cs| ==> SameButBuffers(cs[i], ds[i])
    ensures Find(ds, id, 0).None?
  {
    hide Find;
  }

  /** A turn of the pump on this side, between two messages, with NEW for an unknown identifier in front
      of the tunnel's in_buf and room in the queue: the command is read, a connect is tried, and the
      answer is put in line; if it succeeds the new connection is in the table. */
  lemma NewInFrontIsAnswered(v: Variant, x: Side, index: map<int, nat>, made: Option<Slot>, k: byte, rest: seq<byte>)
    requires PumpOkHere(v, x.host, index) && x.host.target.None? && |x.host.queue| < QUEUE_SIZE
    requires
      var b := Conns(x.host.table)[index[0]].inb;
      b.Valid() && b.length > 3 && b.Contents() == CommandFrame(CMD_NEW, k) + rest
    requires Find(Conns(x.host.table), k, 0).None?
    ensures
      var h, e := x.host, AnsweredHere(v, x, index, made).host;
      var s := Connected(h, k, made);
      var answer := Command(if s.Some? then CMD_ACK else CMD_CLOSE, k);
      && e.log == h.log + Takes([Given(Command(CMD_NEW, k))]) + [Emit(Order(answer))]
      && e.queue == h.queue + [answer]
      && |e.table| == |h.table| + One(s.Some?) && (s.Some? ==> e.table[|h.table|].conn == s.value.conn)
      && 0 in index && index[0] < |e.table| && e.table[index[0]].conn.inb.Valid()
      && e.table[index[0]].conn.inb.Contents() == rest
  {
    hide Usable, TargetThere, Hear, Listened, Find, Ring.Contents, Connected, ReactedHere, Takes;
    var h := x.host;
    var c := Command(CMD_NEW, k);
    HearsNew(v, h, index, k, rest);
    var h0 := Listened(h, index, Hear(v, h, index));
    SameConnected(h, h0, k, made);
    UnknownAnswer(v, x.(host := h0), k, made, index[0]);
  }

  lemma HearsNew(v: Variant, h: Host, index: map<int, nat>, k: byte, rest: seq<byte>)
    requires Usable(Conns(h.table), index) && h.target.None? && Find(Conns(h.table), k, 0).None?
    requires
      var b := Conns(h.table)[index[0]].inb;
      b.Valid() && b.length > 3 && b.Contents() == CommandFrame(CMD_NEW, k) + rest
    ensures
      var r := Hear(v, h, index);
      var h0 := Listened(h, index, r);
      && OrderOf(r.got) == Some(Command(CMD_NEW, k))
      && h0.queue == h.queue && h0.log == h.log + Takes([Given(Command(CMD_NEW, k))])
      && |h0.table| == |h.table| && Find(Conns(h0.table), k, 0).None?
      && 0 in index && index[0] < |h0.table| && h0.table[index[0]].conn.inb.Valid()
      && h0.table[index[0]].conn.inb.Contents() == rest
  {
    hide Usable, Outs, Hearing, Hear, HeardConns, Find, Ring.Contents, Fits, Takes;
    var item := Order(Command(CMD_NEW, k));
    OrderFits(h, index, item.command);
    HearsItem(v, h, index, item, rest);
    OrderOfItem(item);
    var r := Hear(v, h, index);
    var h0 := Listened(h, index, r);
    HeardSame(Conns(h.table), index, r);
    StillUnknown(Conns(h.table), Conns(h0.table), k);
    TunnelThere(Conns(h.table), index);
    TunnelHears(h, index, r);
    assert Conns(h0.table)[index[0]] == h0.table[index[0]].conn;
  }

  lemma TunnelThere(cs: seq<Conn>, index: map<int, nat>)
    requires Usable(cs, index)
    ensures 0 in index && index[0] < |cs|
  {
  }

  lemma UnknownAnswer(v: Variant, x: Side, k: byte, made: Option<Slot>, i: nat)
    requires Find(Conns(x.host.table), k, 0).None? && |x.host.queue| < QUEUE_SIZE && i < |x.host.table|
    ensures
      var h, e := x.host, ReactedHere(v, x, Command(CMD_NEW, k), made).host;
      var s := Connected(h, k, made);
      var answer := Command(if s.Some? then CMD_ACK else CMD_CLOSE, k);
      && e.log == h.log + [Emit(Order(answer))] && e.queue == h.queue + [answer]
      && |e.table| == |h.table| + One(s.Some?) && (s.Some? ==> e.table[|h.table|].conn == s.value.conn)
      && e.table[i].conn == h.table[i].conn
  {
    hide Find, ReplyEvents, Replied, ReactedHere, Connected;
    var c := Command(CMD_NEW, k);
    var h, e := x.host, ReactedHere(v, x, c, made).host;
    var s := Connected(h, k, made);
    ReactedConns(v, x, c, made);
    UnknownReply(v, h, c, s);
    UnknownQueue(v, x, c, made);
    ReactedTunnel(v, x, c, made, i);
    assert |Conns(e.table)| == |e.table|;
    if s.Some? {
      assert Conns(e.table)[|h.table|] == s.value.conn;
    }
  }

  lemma OrderFits(h: Host, index: map<int, nat>, c: Command)
    requires Usable(Conns(h.table), index)
    ensures Fits(Order(c), Hearing(h, index)) && Encoding(Order(c)) == CommandFrame(c.cmd, c.arg)
    ensures Atoms(Order(c)) == [Given(c)]
  {
  }

  lemma SameConnected(h: Host, h': Host, k: byte, made: Option<Slot>)
    requires |h'.table| == |h.table|
    ensures Connected(h', k, made) == Connected(h, k, made)
  {
  }

  lemma UnknownQueue(v: Variant, x: Side, c: Command, made: Option<Slot>)
    requires c.cmd == CMD_NEW && Find(Conns(x.host.table), c.arg, 0).None? && |x.host.queue| < QUEUE_SIZE
    ensures
      var s := Connected(x.host, c.arg, made);
      ReactedHere(v, x, c, made).host.queue == x.host.queue + [Command(if s.Some? then CMD_ACK else CMD_CLOSE, c.arg)]
  {
    hide Find, ReplyEvents, Held, WithConns, Connected;
  }

  lemma ReactedTunnel(v: Variant, x: Side, c: Command, made: Option<Slot>, i: nat)
    requires c.cmd == CMD_NEW && i < |x.host.table|
    ensures var e := ReactedHere(v, x, c, made).host; i < |e.table| && e.table[i].conn == x.host.table[i].conn
  {
    hide Find, ReplyEvents, Held, Connected, ReactedHere;
    ReactedConns(v, x, c, made);
    var e := ReactedHere(v, x, c, made).host;
    assert Conns(e.table)[i] == Conns(x.host.table)[i];
  }

  /** In every update on this side the table of the pump holds the connections that were not announced
      as gone, and nobody else; it is reached if the tunnel is there and open, and the queue has room for
      all that is owed; and no identifier goes to the stack. */
  lemma TableIsFullHere(h: Host)
    requires AllNamedHere(Conns(h.table)) && NoneDeleted(Conns(h.table)) && |h.queue| <= QUEUE_SIZE
    ensures
      var cs := Conns(h.table);
      var s := Sort(cs, h.free);
      var d := HandledHere(h, s);
      && Filled(d.conns, d.index, |d.conns|) && IndexOk(d.conns, d.index) && |d.conns| == |cs| && d.free == h.free
      && (!Stops(s) <==> exists i :: 0 <= i < |cs| && TunnelOpen(cs[i]))
      && (!d.again <==> |h.queue| + |OwedUpTo(cs, s.index, MAX_STACK_SIZE)| <= QUEUE_SIZE)
  {
    hide AllNamedHere, NoneDeleted, IndexOk, Filled, SortUpTo, HandleUpTo, OwedUpTo, Stops, TunnelOpen;
    var cs := Conns(h.table);
    SortFindsNames(cs, h.free, |cs|);
    var s := Sort(cs, h.free);
    var d0 := Handled(s.conns, s.free, s.index, [], QUEUE_SIZE - |h.queue|, false);
    IndexIsHere(h, s);
    HandleStaysFilled(d0, false, MAX_STACK_SIZE);
    HandleSaysOwed(d0, false, MAX_STACK_SIZE);
    ConnectingReleasesNothing(d0, MAX_STACK_SIZE);
    StopsHere(s);
  }

  lemma StopsHere(s: Sorted)
    requires IndexOk(s.conns, s.index) && Filled(s.conns, s.index, |s.conns|) && NoneDeleted(s.conns)
    ensures !Stops(s) <==> exists i :: 0 <= i < |s.conns| && TunnelOpen(s.conns[i])
  {
    if !Stops(s) {
      assert TunnelOpen(s.conns[s.index[0]]);
    }
  }

  lemma AnsweredNames(v: Variant, x: Side, index: map<int, nat>, made: Option<Slot>)
    requires PumpOkHere(v, x.host, index) && AllNamedHere(Conns(x.host.table)) && |x.host.queue| <= QUEUE_SIZE
    requires Conns(x.host.table)[index[0]].id == 0
    ensures
      var h1 := AnsweredHere(v, x, index, made).host;
      && AllNamedHere(Conns(h1.table)) && h1.from == x.host.from && |x.host.table| <= |h1.table|
      && 0 in index && index[0] < |h1.table| && Conns(h1.table)[index[0]].id == 0
  {
    hide Usable, TargetThere, Hear, ReactedHere, HeardConns, AllNamedHere;
    var r := Hear(v, x.host, index);
    var x0 := x.(host := Listened(x.host, index, r));
    HeardSame(Conns(x.host.table), index, r);
    ListenedNames(x.host, index, r);
    TunnelThere(Conns(x.host.table), index);
    assert Conns(x0.host.table)[index[0]].id == 0;
    if OrderOf(r.got).Some? {
      var c := OrderOf(r.got).value;
      IdsStay(v, x0, c, made);
      ReactedNames(v, x0, c, made);
      ReactedFrom(v, x0, c, made);
    }
  }

  lemma ReactedFrom(v: Variant, x: Side, c: Command, made: Option<Slot>)
    ensures ReactedHere(v, x, c, made).host.from == x.host.from
  {
  }

  /** A turn of the pump on this side serves every connection of its table that waits behind the
      receiving half, as on the other side. */
  lemma TurnServesHere(v: Variant, x: Side, index: map<int, nat>, made: Option<Slot>, i: nat, k: byte)
    requires PumpOkHere(v, x.host, index) && AllNamedHere(Conns(x.host.table)) && IndexOk(Conns(x.host.table), index)
    requires Filled(Conns(x.host.table), index, |x.host.table|) && |x.host.queue| <= QUEUE_SIZE && x.host.from <= 255
    requires k != 0 && i < |x.host.table| && Holds(Conns(x.host.table)[i], k)
    requires
      var h1 := AnsweredHere(v, x, index, made).host;
      i < |h1.table| && Waits(Conns(h1.table)[i], k)
    ensures
      var h1, e := AnsweredHere(v, x, index, made).host, PumpedHere(v, x, index, made).host;
      var cs := Conns(h1.table);
      && Usable(Conns(e.table), index) && |e.table| == |h1.table| && 0 in index && index[0] < |cs|
      && cs[index[0]].outb.Valid() && cs[i].inb.Valid() && cs[i].inb.Contents() != []
      && var room := cs[index[0]].outb.Free();
      && (room >= 5 * |h1.queue| ==>
            && e.queue == [] && h1.wire + Orders(h1.queue) <= e.wire
            && Serves(x.host.from, e, index, e.wire[|h1.wire + Orders(h1.queue)|..], k, cs[i].inb.Contents()))
      && (room < 5 * |h1.queue| ==> e.wire == h1.wire + Orders(h1.queue[..room / 5]))
  {
    hide Usable, IndexOk, Filled, PumpTable, Sending, SentConns, Waits, Serves, FrameEvents, Orders, AnsweredHere,
      PumpOkHere, AllNamedHere, Holds;
    InTable(Conns(x.host.table), index, i, k);
    TunnelThere(Conns(x.host.table), index) by { UsableHere(v, x.host, index); }
    Accounts.TunnelHeld(Conns(x.host.table), index);
    AnsweredNames(v, x, index, made);
    TableHere(v, x, index, made);
    SentServes(v, AnsweredHere(v, x, index, made).host, PumpedHere(v, x, index, made).host, index, i, k);
  }

  lemma UsableHere(v: Variant, h: Host, index: map<int, nat>)
    requires PumpOkHere(v, h, index)
    ensures Usable(Conns(h.table), index)
  {
  }
}
