/** The pump of pump.c: what it receives from the tunnel goes into the out_bufs of the
    connections, what waits in their in_bufs goes into the tunnel behind the queued commands. */
module Pumps {
  import opened Basics
  import opened Ring
  import opened RoundBuffers
  import opened Framing
  import opened Receiver
  import opened Codec
  import opened CommandQueues
  import opened Connections
  import opened Scheduling

  /** Connection 0 is the tunnel; `outs` shows the out_buf of every other connection. */
  ghost predicate Shows(cs: seq<Connection?>, outs: map<byte, Ring>)
    requires |cs| == MAX_CONNECTIONS
    reads set i | 0 <= i < |cs| && cs[i] != null :: cs[i].outBuf
    reads set i | 0 <= i < |cs| && cs[i] != null :: cs[i].outBuf.buffer
  {
    && 0 !in outs
    && forall id: byte {:trigger id in outs} {:trigger cs[id]} :: id != 0 ==>
         (id in outs <==> cs[id] != null)
         && (id in outs ==> cs[id].outBuf.Model() == outs[id])
  }

  /** The receiver's buffers are those of `r`. */
  ghost predicate Mirrors(cs: seq<Connection?>, r: Received)
    requires |cs| == MAX_CONNECTIONS && cs[0] != null
    reads cs[0].inBuf, cs[0].inBuf.buffer
    reads set i | 0 <= i < |cs| && cs[i] != null :: cs[i].outBuf
    reads set i | 0 <= i < |cs| && cs[i] != null :: cs[i].outBuf.buffer
  {
    r.Valid() && cs[0].inBuf.Model() == r.tin && Shows(cs, r.outs)
  }

  /** `decode` into connection `t`. */
  method DeliverTo(cs: seq<Connection?>, t: byte, ghost r: Received)
    returns (ended: bool, overrun: bool)
    requires |cs| == MAX_CONNECTIONS && Separate(cs) && cs[0] != null
    requires Mirrors(cs, r) && t in r.outs && r.tin.length > 0
    modifies cs[0].inBuf, cs[t].outBuf, cs[t].outBuf.buffer
    ensures
      var r' := Deliver(Shipped, r, t);
      && (!overrun ==> Mirrors(cs, r') && r'.target == if ended then None else Some(t))
      && (!overrun ==> r'.fault == r.fault || r'.fault.WroteOverData?)
      && (overrun ==> r'.fault.ReadPastData?)
      && (r'.fault.ReadPastData? && !r.fault.ReadPastData? ==> overrun)
  {
    ended, overrun := DecodeInto(cs[0].inBuf, cs[t].outBuf);
  }

  /** How a call ends: normally, with `exit(2)`, or in the unguarded step of the decoder. */
  datatype Outcome = Done | Exited | Overran

  /** The outcome is that of the step on values; overwritten data goes unnoticed. */
  predicate Agrees(o: Outcome, r: Received) {
    match o
    case Done => r.fault.NoFault? || r.fault.WroteOverData?
    case Exited => r.fault.Violation?
    case Overran => r.fault.ReadPastData?
  }

  function TargetOf(sendingTo: int): Option<byte> {
    if 0 <= sendingTo < 256 then Some(sendingTo) else None
  }

  lemma DataIsNoOrder(r: Received, id: byte)
    requires r.Valid() && r.target.None? && id in r.outs
    requires r.tin.length > 3 && r.tin.Contents()[0] == END_BYTE && r.tin.Contents()[1] == id != 0
    ensures TakeHead(Shipped, r) == Deliver(Shipped, Opened(r, id), id)
    ensures OrderOf(TakeHead(Shipped, r).got).None?
    ensures Opened(r, id).tin.length == r.tin.length - 2
  {
  }

  /** A data head: the frame is opened and decoded as far as possible. */
  method TakeData(cs: seq<Connection?>, id: byte, ghost r: Received) returns (sendingTo: int, outcome: Outcome)
    requires |cs| == MAX_CONNECTIONS && Separate(cs) && cs[0] != null
    requires Mirrors(cs, r) && r.target.None? && (r.fault.NoFault? || r.fault.WroteOverData?)
    requires r.tin.length > 3 && r.tin.Contents()[0] == END_BYTE && r.tin.Contents()[1] == id != 0
    requires cs[id] != null
    modifies cs[0].inBuf, cs[id].outBuf, cs[id].outBuf.buffer
    ensures Agrees(outcome, TakeHead(Shipped, r)) && -1 <= sendingTo < MAX_CONNECTIONS && sendingTo != 0
    ensures outcome.Done? ==>
      Mirrors(cs, TakeHead(Shipped, r)) && TargetOf(sendingTo) == TakeHead(Shipped, r).target
    ensures OrderOf(TakeHead(Shipped, r).got).None?
  {
    DataIsNoOrder(r, id);
    var _ := cs[0].inBuf.AdvanceReadPtr(2);
    assert Mirrors(cs, Opened(r, id));
    hide TakeHead, Deliver, OrderOf, Mirrors;
    var ended, overrun := DeliverTo(cs, id, Opened(r, id));
    sendingTo, outcome := if ended then -1 else id, if overrun then Overran else Done;
  }

  /** A command: three bytes, the argument, and the end byte unread. */
  method TakeOrder(cs: seq<Connection?>, ghost r: Received) returns (order: Command)
    requires |cs| == MAX_CONNECTIONS && Separate(cs) && cs[0] != null
    requires Mirrors(cs, r) && r.target.None?
    requires r.tin.length >= 5 && r.tin.Contents()[0] == END_BYTE && r.tin.Contents()[1] == 0
    modifies cs[0].inBuf
    ensures Mirrors(cs, TakeHead(Shipped, r)) && TakeHead(Shipped, r).target.None?
    ensures TakeHead(Shipped, r).fault == r.fault
    ensures OrderOf(TakeHead(Shipped, r).got) == Some(order)
  {
    var buf := cs[0].inBuf;
    var start := buf.Peek(3);
    var _ := buf.AdvanceReadPtr(3);
    var arg := buf.PeekByte();
    order := Command(start.value[2], arg.value);
    var _ := buf.AdvanceReadPtr(2);
  }

  /** The part of `recv_from_tunnel` that looks at a head. */
  method TakeNextHead(cs: seq<Connection?>, ghost r: Received)
    returns (sendingTo: int, order: Option<Command>, outcome: Outcome)
    requires |cs| == MAX_CONNECTIONS && Separate(cs) && cs[0] != null
    requires Mirrors(cs, r) && r.target.None? && (r.fault.NoFault? || r.fault.WroteOverData?)
    requires OrderOf(r.got).None?
    modifies cs[0].inBuf
    modifies set i | 0 < i < |cs| && cs[i] != null :: cs[i].outBuf
    modifies set i | 0 < i < |cs| && cs[i] != null :: cs[i].outBuf.buffer
    ensures Agrees(outcome, TakeHead(Shipped, r)) && -1 <= sendingTo < MAX_CONNECTIONS && sendingTo != 0
    ensures outcome.Done? ==>
      && Mirrors(cs, TakeHead(Shipped, r)) && TargetOf(sendingTo) == TakeHead(Shipped, r).target
      && order == OrderOf(TakeHead(Shipped, r).got)
  {
    hide Deliver, OrderOf;
    sendingTo, order, outcome := -1, None, Done;
    var available := cs[0].inBuf.length;
    if available > 3 {
      var start := cs[0].inBuf.Peek(3);
      var x := start.value;
      if x[0] != END_BYTE {
        outcome := Exited;
      } else if x[1] == 0 {
        if available >= 5 {
          var c := TakeOrder(cs, r);
          order := Some(c);
        }
      } else if cs[x[1]] == null {
        outcome := Exited;
      } else {
        sendingTo, outcome := TakeData(cs, x[1], r);
      }
    }
  }

  lemma MirrorFacts(cs: seq<Connection?>, r: Received)
    requires |cs| == MAX_CONNECTIONS && cs[0] != null && Mirrors(cs, r)
    ensures r.Valid() && cs[0].inBuf.length == r.tin.length
  {
  }

  lemma ReceiveCases(r: Received)
    requires r.Valid()
    ensures OrderOf([]).None?
    ensures r.tin.length == 0 ==> Receive(Shipped, r) == r
    ensures r.tin.length > 0 && r.target.None? ==> Receive(Shipped, r) == TakeHead(Shipped, r)
    ensures r.tin.length > 0 && r.target.Some? ==>
      var r1 := Deliver(Shipped, r, r.target.value);
      Receive(Shipped, r) == if r1.fault.ReadPastData? || r1.target.Some? then r1 else TakeHead(Shipped, r1)
  {
  }

  lemma ContinuingIsNoOrder(r: Received, t: byte)
    requires r.Valid() && t in r.outs && r.fault.NoFault? && r.got == []
    ensures var r' := Deliver(Shipped, r, t);
            && OrderOf(r'.got).None?
            && (r'.fault.NoFault? || r'.fault.WroteOverData? || r'.fault.ReadPastData?)
            && (r'.fault.ReadPastData? ==> r'.target.Some?)
  {
  }

  /** The in_bufs of the connections whose state bytes let the pump send; `srcs` shows them. */
  ghost predicate ShowsLive(cs: seq<Connection?>, srcs: map<byte, Ring>)
    requires |cs| == MAX_CONNECTIONS
    reads set i | 0 <= i < |cs| && cs[i] != null :: cs[i]
    reads set i | 0 <= i < |cs| && cs[i] != null :: cs[i].inBuf
    reads set i | 0 <= i < |cs| && cs[i] != null :: cs[i].inBuf.buffer
  {
    && 0 !in srcs
    && forall id: byte {:trigger id in srcs} {:trigger cs[id]} :: id != 0 ==>
         (id in srcs <==> cs[id] != null && cs[id].state.IsAlive() && cs[id].inState.IsAlive())
         && (id in srcs ==> cs[id].inBuf.Model() == srcs[id])
  }

  /** `c != NULL && is_alive(c->state) && is_alive(c->in_state)`. */
  method LiveAt(cs: seq<Connection?>, id: byte, ghost srcs: map<byte, Ring>) returns (live: bool)
    requires |cs| == MAX_CONNECTIONS && id != 0 && ShowsLive(cs, srcs)
    ensures live <==> id in srcs
  {
    live := cs[id] != null && cs[id].state.IsAlive() && cs[id].inState.IsAlive();
  }

  lemma HeadOf(q: seq<Command>, n: nat, c: Command, rest: seq<Command>)
    requires n < |q| && [c] + rest == q[n..]
    ensures c == q[n] && rest == q[n + 1..]
  {
    assert q[n..][1..] == q[n + 1..];
    assert ([c] + rest)[1..] == rest;
  }

  method VisitAt(index: nat, i: nat) returns (ind: byte)
    ensures ind == Visit(index, i)
  {
    ind := (index + i) % 255 + 1;
  }

  /** No in_buf of the table is the out_buf of the tunnel. */
  lemma InputsApart(cs: seq<Connection?>)
    requires Separate(cs) && 0 < |cs| && cs[0] != null
    ensures forall j :: 0 <= j < |cs| && cs[j] != null ==>
      cs[j].inBuf != cs[0].outBuf && cs[j].inBuf.buffer != cs[0].outBuf.buffer
  {
    hide Separate;
    forall j | 0 <= j < |cs| && cs[j] != null
      ensures cs[j].inBuf != cs[0].outBuf && cs[j].inBuf.buffer != cs[0].outBuf.buffer
    {
      InputApart(cs, j);
    }
  }

  class Pump {
    var sendingTo: int
    var currentIndex: nat
    const queue: CommandQueue

    ghost predicate Valid()
      reads this, queue
    {
      queue.Valid() && -1 <= sendingTo < MAX_CONNECTIONS && sendingTo != 0 && currentIndex < MAX_CONNECTIONS
    }

    constructor (queueSize: nat)
      requires queueSize > 0
      ensures Valid() && fresh(queue) && fresh(queue.queue) && queue.Waiting() == []
      ensures sendingTo == -1 && currentIndex == 0
    {
      sendingTo, currentIndex := -1, 0;
      queue := new CommandQueue(queueSize);
    }

    /** `recv_from_tunnel`. If there are bytes to read, the connection whose message is under way must
        be there. */
    method RecvFromTunnel(cs: seq<Connection?>, ghost r: Received)
      returns (order: Option<Command>, outcome: Outcome)
      requires |cs| == MAX_CONNECTIONS && Separate(cs) && cs[0] != null && Valid()
      requires sendingTo != -1 && cs[0].inBuf.length > 0 ==> cs[sendingTo] != null
      requires Mirrors(cs, r) && r.fault.NoFault? && r.got == []
      requires r.target == TargetOf(sendingTo) || (r.target.None? && cs[0].inBuf.length == 0)
      modifies this`sendingTo, cs[0].inBuf
      modifies set i | 0 < i < |cs| && cs[i] != null :: cs[i].outBuf
      modifies set i | 0 < i < |cs| && cs[i] != null :: cs[i].outBuf.buffer
      ensures Valid() && Agrees(outcome, Receive(Shipped, r))
      ensures outcome.Done? ==>
        && Mirrors(cs, Receive(Shipped, r)) && order == OrderOf(Receive(Shipped, r).got)
        && TargetOf(sendingTo)
           == if r.target == TargetOf(old(sendingTo)) then Receive(Shipped, r).target else TargetOf(old(sendingTo))
    {
      hide Receive, TakeHead, Deliver, OrderOf, Mirrors, Separate;
      MirrorFacts(cs, r);
      ReceiveCases(r);
      order, outcome := None, Done;
      if cs[0].inBuf.length == 0 {
        return;
      }
      ghost var r1 := r;
      if sendingTo != -1 {
        r1 := Deliver(Shipped, r, r.target.value);
        ContinuingIsNoOrder(r, r.target.value);
        var ended, overrun := DeliverTo(cs, sendingTo, r);
        if overrun {
          outcome := Overran;
          return;
        }
        if !ended {
          return;
        }
        sendingTo := -1;
      }
      sendingTo, order, outcome := TakeNextHead(cs, r1);
    }

    /** The body of the command loop: the next command leaves the queue whether it fits or not. */
    method SendNext(out: RoundBuffer, ghost q: seq<Command>, ghost n: nat) returns (sent: bool)
      requires Valid() && out.Valid() && n < |q| && queue.Waiting() == q[n..]
      modifies queue, out, out.buffer
      ensures Valid() && queue.Waiting() == q[n + 1..] && sent == (old(out.Model()).Free() >= 5)
      ensures out.Model() == if sent then old(out.Model()).Fill(Shipped, CommandFrame(q[n].cmd, q[n].arg))
                             else old(out.Model())
    {
      hide CommandFrame, CommandQueue.Waiting, RoundBuffer.Model, Ring.Fill;
      var c := queue.Dequeue();
      HeadOf(q, n, c, queue.Waiting());
      sent := EncodeCommand(out, c);
    }

    /** The command loop of `pump_transfer`. */
    method SendQueued(out: RoundBuffer) returns (blocked: bool)
      requires Valid() && out.Valid()
      modifies queue, out, out.buffer
      ensures Valid()
      ensures
        var q := old(queue.Waiting());
        var s := SendCommands(Shipped, q, 0, old(out.Model()), false);
        blocked == s.blocked && queue.Waiting() == QueueAfter(Shipped, q, s) && out.Model() == s.tout
    {
      hide CommandFrame, Overwrites, SendCommands, QueueAfter, CommandQueue.Waiting, RoundBuffer.Model, Ring.Fill,
        Ring.Free;
      ghost var q, was := queue.Waiting(), out.Model();
      ghost var n, fault := 0, false;
      assert q[0..] == q;
      var left := queue.Length();
      while left > 0
        invariant Valid() && out.Valid() && n <= |q| && queue.Waiting() == q[n..] && left == |q| - n
        invariant SendCommands(Shipped, q, 0, was, false) == SendCommands(Shipped, q, n, out.Model(), fault)
        decreases |q| - n
      {
        SendCases(Shipped, q, n, out.Model(), fault);
        fault := fault || Overwrites(Shipped, out.Model(), CommandFrame(q[n].cmd, q[n].arg));
        var sent := SendNext(out, q, n);
        if !sent {
          return true;
        }
        n := n + 1;
        left := queue.Length();
      }
      SendCases(Shipped, q, n, out.Model(), fault);
      return false;
    }

    /** One `encode` in the data loop. */
    method Offer(cs: seq<Connection?>, id: byte, ghost p: Pass) returns (ok: bool)
      requires |cs| == MAX_CONNECTIONS && Separate(cs) && cs[0] != null
      requires id != 0 && id in p.srcs && ShowsLive(cs, p.srcs) && cs[id].id == id as int
      requires p.Valid() && p.blocked.None? && cs[0].outBuf.Model() == p.tout
      modifies cs[id].inBuf, cs[0].outBuf, cs[0].outBuf.buffer
      ensures ok == OfferTo(Shipped, p, id).blocked.None?
      ensures cs[0].outBuf.Model() == OfferTo(Shipped, p, id).tout
      ensures ShowsLive(cs, OfferTo(Shipped, p, id).srcs)
    {
      hide EncodeStep, Overwrites, Separate, RoundBuffer.Model;
      InputApart(cs, id);
      ok := Encode(cs[id].inBuf, cs[0].outBuf, cs[id].id);
      forall j: byte | j in p.srcs && j != id
        ensures cs[j].inBuf.Model() == p.srcs[j]
      {
        InputApart(cs, j);
      }
    }

    /** The body of the data loop for connection `id`. */
    method OfferAt(cs: seq<Connection?>, id: byte, ghost p: Pass) returns (ok: bool)
      requires |cs| == MAX_CONNECTIONS && Separate(cs) && cs[0] != null && id != 0
      requires id in p.srcs ==> cs[id] != null && cs[id].id == id as int
      requires ShowsLive(cs, p.srcs) && p.Valid() && p.blocked.None? && cs[0].outBuf.Model() == p.tout
      modifies cs[0].outBuf, cs[0].outBuf.buffer
      modifies set j | j in p.srcs && cs[j] != null :: cs[j].inBuf
      ensures var q := if id in p.srcs then OfferTo(Shipped, p, id) else p;
              ok == q.blocked.None? && cs[0].outBuf.Model() == q.tout && ShowsLive(cs, q.srcs)
    {
      hide OfferTo, ShowsLive, Separate, Pass.Valid;
      ok := true;
      var live := LiveAt(cs, id, p.srcs);
      if live {
        ok := Offer(cs, id, p);
      }
    }

    /** The data loop of `pump_transfer`, over the live connections `p.srcs`. */
    method OfferAll(cs: seq<Connection?>, ghost p: Pass)
      requires |cs| == MAX_CONNECTIONS && Separate(cs) && cs[0] != null && Valid()
      requires forall id: byte :: id in p.srcs ==> cs[id] != null && cs[id].id == id as int
      requires ShowsLive(cs, p.srcs) && p.Valid() && p.blocked.None? && cs[0].outBuf.Model() == p.tout
      modifies this`currentIndex, cs[0].outBuf, cs[0].outBuf.buffer
      modifies set j | j in p.srcs && cs[j] != null :: cs[j].inBuf
      ensures Valid()
      ensures
        var e := Offers(Shipped, old(currentIndex), 0, p);
        && cs[0].outBuf.Model() == e.tout && ShowsLive(cs, e.srcs)
        && currentIndex == if e.blocked.Some? then e.blocked.value else old(currentIndex)
    {
      hide Offers, OfferTo, ShowsLive, Separate, Pass.Valid, RoundBuffer.Model, Visit;
      ghost var q := p;
      var index := currentIndex;
      var i := 0;
      while i < MAX_CONNECTIONS - 1
        invariant 0 <= i <= MAX_CONNECTIONS - 1
        invariant q.Valid() && q.blocked.None? && q.srcs.Keys == p.srcs.Keys
        invariant ShowsLive(cs, q.srcs) && cs[0].outBuf.Model() == q.tout
        invariant Offers(Shipped, index, 0, p) == Offers(Shipped, index, i, q)
        invariant currentIndex == index
      {
        OffersCases(Shipped, index, i, q);
        var ind := VisitAt(index, i);
        var ok := OfferAt(cs, ind, q);
        q := if ind in q.srcs then OfferTo(Shipped, q, ind) else q;
        if !ok {
          currentIndex := ind;
          return;
        }
        i := i + 1;
      }
      OffersCases(Shipped, index, MAX_CONNECTIONS - 1, q);
    }

    /** `pump_transfer` behind the call of `recv_from_tunnel`; `srcs` shows the in_bufs of the
        live connections. */
    method TransferOut(cs: seq<Connection?>, ghost srcs: map<byte, Ring>)
      requires |cs| == MAX_CONNECTIONS && Separate(cs) && cs[0] != null && Valid()
      requires forall id: byte :: id in srcs ==> cs[id] != null && cs[id].id == id as int
      requires ShowsLive(cs, srcs) && cs[0].outBuf.Valid()
      requires forall id :: id in srcs ==> srcs[id].Valid()
      modifies this`currentIndex, queue, cs[0].outBuf, cs[0].outBuf.buffer
      modifies set j | j in srcs && cs[j] != null :: cs[j].inBuf
      ensures Valid()
      ensures
        var (s, p) := Transfer(Shipped, old(queue.Waiting()), old(cs[0].outBuf.Model()), srcs,
                               old(currentIndex));
        && queue.Waiting() == QueueAfter(Shipped, old(queue.Waiting()), s)
        && cs[0].outBuf.Model() == p.tout && ShowsLive(cs, p.srcs)
        && currentIndex == if p.blocked.Some? then p.blocked.value else old(currentIndex)
    {
      hide Offers, SendCommands, ShowsLive, QueueAfter, Separate;
      InputsApart(cs);
      ghost var s := SendCommands(Shipped, queue.Waiting(), 0, cs[0].outBuf.Model(), false);
      var blocked := SendQueued(cs[0].outBuf);
      if !blocked {
        OfferAll(cs, Pass(srcs, s.tout, [], [], None, s.fault));
      }
    }
  }
}
