/** What an `update` cannot do to a connection: take a mark, an identifier or the wait for the
    acknowledgement back. */
module Aging {
  import opened Basics
  import opened Ring
  import opened Connections
  import opened Slots
  import opened Protocol
  import opened Receiver
  import opened Identifiers
  import opened H = Host

  /** The identifier of the connection that the command acknowledges, if it is one that does. */
  function Acking(c: Option<Command>): Option<int> {
    if c.Some? && c.value.cmd == CMD_ACK then Some(c.value.arg) else None
  }

  /** The acknowledgement that the turn of the pump reads out of the tunnel. */
  function HeardAck(v: Variant, h: Host, index: map<int, nat>): Option<int>
    requires PumpOk(v, h, index)
  {
    Acking(OrderOf(Hear(v, h, index).got))
  }

  /** The acknowledgement that an update reads behind poll, if it gets that far. */
  function AckBehind(v: Variant, h: Host): Option<int>
    requires |h.queue| <= QUEUE_SIZE
  {
    var s := Sort(Conns(h.table), h.free);
    if Stops(s) then None
    else
      var d := HandledAll(h, s);
      var h3 := Announced(Named(h, s), d);
      if d.again || !PumpOk(v, h3, d.index) then None else HeardAck(v, h3, d.index)
  }

  function Acked(v: Variant, h: Host, u: PollInput): Option<int>
    requires PollOk(h.table, u) && |h.queue| <= QUEUE_SIZE
  {
    if u.completes then AckBehind(v, Polled(h, u)) else None
  }

  /** What may happen to a connection: no end-of-file, closed or deletion mark is taken back; an
      identifier stays once it is given; a connection does not become new again; when it is
      announced it is stopped, and it is started only by the acknowledgement. */
  predicate Ages(c: Conn, d: Conn, ack: Option<int>) {
    && Grows(c.state, d.state) && Grows(c.inState, d.inState) && Grows(c.outState, d.outState)
    && (NeedsId(c) || d.id == c.id)
    && (d.state.isNew ==> c.state.isNew)
    && ((c.state.stopped || c.state.isNew) && !d.state.stopped && !d.state.isNew ==> ack == Some(d.id))
  }

  predicate AllAge(cs: seq<Conn>, ds: seq<Conn>, ack: Option<int>) {
    |ds| == |cs| && forall i :: 0 <= i < |cs| ==> Ages(cs[i], ds[i], ack)
  }

  lemma AgesOn(a: Conn, b: Conn, c: Conn, ack: Option<int>)
    requires Ages(a, b, ack) && Ages(b, c, ack) && (ack.Some? ==> 0 <= ack.value < 256)
    ensures Ages(a, c, ack)
  {
  }

  lemma AllAgeOn(cs: seq<Conn>, ds: seq<Conn>, es: seq<Conn>, ack: Option<int>)
    requires AllAge(cs, ds, ack) && AllAge(ds, es, ack) && (ack.Some? ==> 0 <= ack.value < 256)
    ensures AllAge(cs, es, ack)
  {
    hide Ages;
    forall i | 0 <= i < |cs|
      ensures Ages(cs[i], es[i], ack)
    {
      AgesOn(cs[i], ds[i], es[i], ack);
    }
  }

  lemma EachAges(cs: seq<Conn>, ack: Option<int>)
    ensures AllAge(cs, cs, ack)
  {
  }

  lemma {:induction false} SortAges(cs: seq<Conn>, free: seq<int>, n: nat)
    requires n <= |cs|
    ensures AllAge(cs, SortUpTo(cs, free, n).conns, None)
    ensures forall i :: n <= i < |cs| ==> SortUpTo(cs, free, n).conns[i] == cs[i]
  {
    if n > 0 {
      SortAges(cs, free, n - 1);
    }
  }

  lemma ReactAges(c: Conn, room: nat)
    ensures Ages(c, React(c, room).conn, None)
  {
  }

  lemma HandleStepAges(h: Handled, accepting: bool, i: int)
    requires h.Valid()
    ensures AllAge(h.conns, HandleStep(h, accepting, i).conns, None)
  {
    hide React, Ages;
    EachAges(h.conns, None);
    if !h.again && i in h.index {
      ReactAges(h.conns[h.index[i]], h.room - |h.said|);
    }
  }

  lemma {:induction false} HandleAges(h: Handled, accepting: bool, n: nat)
    requires h.Valid()
    ensures AllAge(h.conns, HandleUpTo(h, accepting, n).conns, None)
  {
    hide React, Ages;
    if n == 0 {
      EachAges(h.conns, None);
    } else {
      HandleAges(h, accepting, n - 1);
      var g := HandleUpTo(h, accepting, n - 1);
      HandleStepAges(g, accepting, n);
      AllAgeOn(h.conns, g.conns, HandleStep(g, accepting, n).conns, None);
    }
  }

  lemma AnyAck(cs: seq<Conn>, ds: seq<Conn>, ack: Option<int>)
    requires AllAge(cs, ds, None)
    ensures AllAge(cs, ds, ack)
  {
    forall i | 0 <= i < |cs|
      ensures Ages(cs[i], ds[i], ack)
    {
      assert Ages(cs[i], ds[i], None);
    }
  }

  lemma ReactedAges(v: Variant, h: Host, c: Command)
    requires FromPeer(c)
    ensures AllAge(Conns(h.table), Conns(Reacted(v, h, c).table), if c.cmd == CMD_ACK then Some(c.arg) else None)
  {
  }

  lemma SameAges(cs: seq<Conn>, ds: seq<Conn>, ack: Option<int>)
    requires |ds| == |cs| && forall i :: 0 <= i < |cs| ==> SameButBuffers(cs[i], ds[i])
    ensures AllAge(cs, ds, ack)
  {
    forall i | 0 <= i < |cs|
      ensures Ages(cs[i], ds[i], ack)
    {
      assert SameButBuffers(cs[i], ds[i]);
    }
  }

  lemma AnsweredAges(v: Variant, h: Host, index: map<int, nat>)
    requires PumpOk(v, h, index)
    ensures AllAge(Conns(h.table), Conns(Answered(v, h, index).table), HeardAck(v, h, index))
  {
    hide Usable, TargetThere, Hear, Reacted, HeardConns, Ages, SameButBuffers;
    var r := Hear(v, h, index);
    var ack := HeardAck(v, h, index);
    var h0 := Listened(h, index, r);
    HeardSame(Conns(h.table), index, r);
    SameAges(Conns(h.table), Conns(h0.table), ack);
    if OrderOf(r.got).Some? {
      ReactedAges(v, h0, OrderOf(r.got).value);
      AllAgeOn(Conns(h.table), Conns(h0.table), Conns(Answered(v, h, index).table), ack);
    }
  }

  lemma PumpedAges(v: Variant, h: Host, index: map<int, nat>)
    requires PumpOk(v, h, index)
    ensures AllAge(Conns(h.table), Conns(Pumped(v, h, index).table), HeardAck(v, h, index))
  {
    hide Answered, SentConns, Ages, Sending, Usable, WithOrders, PumpOk, Hear, SameButBuffers;
    var h1 := Answered(v, h, index);
    var (s, p) := Sending(v, h1, index);
    var ack := HeardAck(v, h, index);
    AnsweredAges(v, h, index);
    OrdersSame(v, h1, s);
    SentSame(Conns(h1.table), index, p);
    SameAges(Conns(h1.table), SentConns(Conns(h1.table), index, p), ack);
    AllAgeOn(Conns(h.table), Conns(h1.table), SentConns(Conns(h1.table), index, p), ack);
  }

  /** Behind poll an update keeps the table, and every connection in it only ages. */
  lemma BehindAges(v: Variant, h: Host)
    requires |h.queue| <= QUEUE_SIZE
    ensures AllAge(Conns(h.table), Conns(Behind(v, h).table), AckBehind(v, h))
  {
    hide SortUpTo, Stops, HandleUpTo, PumpOk, Pumped, AllAge, HeardAck;
    var ack := AckBehind(v, h);
    var cs := Conns(h.table);
    SortAges(cs, h.free, |cs|);
    var s := Sort(cs, h.free);
    AnyAck(cs, s.conns, ack);
    if !Stops(s) {
      HandleAges(Handled(s.conns, s.free, s.index, [], QUEUE_SIZE - |h.queue|, false), true, MAX_STACK_SIZE);
      var d := HandledAll(h, s);
      AnyAck(s.conns, d.conns, ack);
      AckIsByte(v, h);
      AllAgeOn(cs, s.conns, d.conns, ack);
      var h3 := Announced(Named(h, s), d);
      if !d.again && PumpOk(v, h3, d.index) {
        PumpedAges(v, h3, d.index);
        AllAgeOn(cs, d.conns, Conns(Pumped(v, h3, d.index).table), ack);
      }
    }
  }

  lemma AckIsByte(v: Variant, h: Host)
    requires |h.queue| <= QUEUE_SIZE
    ensures AckBehind(v, h).Some? ==> 0 <= AckBehind(v, h).value < 256
  {
    hide Sort, Stops, HandledAll, PumpOk, Hear, Announced;
  }

  lemma EvolvesAges(s: Slot, s': Slot, ack: Option<int>)
    requires Evolves(s, s')
    ensures Ages(s.conn, s'.conn, ack)
  {
    hide KeepsBytes;
  }

  /** Through a whole update every connection ages from one that was there before or was just
      accepted: marks, identifiers and the wait for the acknowledgement are never taken back. */
  lemma UpdateAges(v: Variant, h: Host, u: PollInput, c: Conn)
    requires PollOk(h.table, u) && |h.queue| <= QUEUE_SIZE && c in Conns(Update(v, h, u).table)
    ensures (exists s :: s in h.table && Ages(s.conn, c, Acked(v, h, u)))
            || (u.accepted.Some? && Ages(u.accepted.value.conn, c, Acked(v, h, u)))
  {
    hide PollOk, Poll, Ages, Evolves, Behind, AckBehind;
    var h1, ack := Polled(h, u), Acked(v, h, u);
    BehindAges(v, h1);
    AckIsByte(v, h1);
    EachAges(Conns(h1.table), ack);
    var i :| 0 <= i < |Conns(Update(v, h, u).table)| && Conns(Update(v, h, u).table)[i] == c;
    var t := h1.table[i];
    PollDescends(h.table, u, t);
    if s :| s in h.table && Evolves(s, t) {
      EvolvesAges(s, t, ack);
      AgesOn(s.conn, t.conn, c, ack);
    } else {
      EvolvesAges(u.accepted.value, t, ack);
      AgesOn(u.accepted.value.conn, t.conn, c, ack);
    }
  }
}
