/** Once everything is in front of the receiver and there is room for it, repeated calls hand out
    all of it, whatever was received before and however it was cut. */
module Arrival {
  import opened Basics
  import opened Ring
  import opened Framing
  import opened Wire
  import opened Payloads
  import opened Receiver
  import opened Runs
  import opened Tunnel
  import opened TunnelSteps
  import opened Conservation

  /** Everything has reached the receiver's in_buf, the accounts are balanced, and each out_buf has
      more room than its payload in the tunnel. */
  ghost predicate Arrived(s: System) {
    && Inv(s) && s.fault.NoFault? && s.pipe.channel == [] && s.pipe.tout == []
    && forall id :: id in s.outs ==>
         OutBalanced(s, id) && |Payload(Pending(s), id)| < s.outs[id].Free()
  }

  /** The receiver has nothing in front of it, or one empty frame, which it does not look at. */
  predicate Drained(x: seq<byte>, target: Option<byte>) {
    x == [] || (target.None? && |x| == 3 && x[0] == END_BYTE == x[2] && x[1] != 0)
  }

  /** The bytes in front of the receiver are read to their end by the reference reader. */
  lemma ArrivedReads(s: System)
    requires Inv(s) && s.pipe.channel == [] && s.pipe.tout == []
    ensures s.pipe.InTunnel() == s.pipe.tin
    ensures var e := Read(s.pipe.tin, Reader(0, s.pipe.target, [])); e.pos == |s.pipe.tin| && e.target.None?
  {
    var p := s.pipe;
    assert p.tin + ([] + []) == p.tin;
    ReadMoves(p.wire, p.InTunnel(), p.at, Reader(p.at, p.target, p.got));
    ReadAppends(p.InTunnel(), Reader(0, p.target, []), p.got);
    assert p.got + [] == p.got;
  }

  /** Bytes that the reference reader reads to their end are, when short, nothing or an empty
      frame, and otherwise begin with a unit that is there in full. */
  lemma ShortReads(x: seq<byte>, target: Option<byte>)
    requires var e := Read(x, Reader(0, target, [])); e.pos == |x| && e.target.None?
    ensures x == [] || CanRead(x, 0, target)
    ensures target.None? && |x| <= 3 ==> Drained(x, target)
  {
    if target.None? && 0 < |x| <= 3 {
      var r := ReadOne(x, Reader(0, None, []));
      assert Read(x, Reader(0, target, [])) == Read(x, r) && r.target.Some? && r.pos == 2;
      LastByteEnds(x, r);
    }
  }

  /** A frame whose last byte is the last one there is closed by it. */
  lemma LastByteEnds(x: seq<byte>, r: Reader)
    requires r.target.Some? && r.pos + 1 == |x|
    ensures Read(x, r).target.None? ==> x[r.pos] == END_BYTE
  {
    if CanRead(x, r.pos, r.target) && x[r.pos] != END_BYTE {
      var r' := ReadOne(x, r);
      assert r'.pos == |x| && Read(x, r') == r';
    }
  }

  lemma DeliverProgresses(v: Variant, r: Received, t: byte)
    requires r.Valid() && t in r.outs && r.outs[t].Free() > 0 && r.fault.NoFault?
    requires CanRead(r.tin.Contents(), 0, Some(t)) && Deliver(v, r, t).fault.NoFault?
    ensures Deliver(v, r, t).tin.length < r.tin.length
  {
    hide Ring.Fill, CanRead;
    DecodeProgresses(v, r.tin.Contents(), r.outs[t].Free(), t);
  }

  lemma DecodeProgresses(v: Variant, x: seq<byte>, cap: nat, t: byte)
    requires cap > 0 && CanRead(x, 0, Some(t))
    ensures Decode(v, x, 0, |x|, cap, []).pos > 0
  {
  }

  /** A head that is there in full is consumed. */
  lemma HeadProgresses(v: Variant, r: Received)
    requires r.Valid() && r.fault.NoFault? && r.target.None? && r.tin.length > 3
    requires CanRead(r.tin.Contents(), 0, None) && TakeHead(v, r).fault.NoFault?
    ensures TakeHead(v, r).tin.length < r.tin.length
  {
    hide Deliver;
    DropLength(r.tin, 2);
    DropLength(r.tin, 3);
    var x := r.tin.Contents();
    if x[1] != 0 && x[1] in r.outs {
      DeliverShortens(v, Opened(r, x[1]), x[1]);
    }
  }

  lemma DropLength(r: Ring, n: nat)
    requires r.Valid()
    ensures r.Drop(n).length <= r.length && (0 < n && 0 < r.length ==> r.Drop(n).length < r.length)
  {
  }

  lemma DeliverShortens(v: Variant, r: Received, t: byte)
    requires r.Valid() && t in r.outs
    ensures Deliver(v, r, t).tin.length <= r.tin.length
  {
    hide Decode, Ring.Fill;
  }

  lemma HeadShortens(v: Variant, r: Received)
    requires r.Valid() && r.target.None?
    ensures TakeHead(v, r).tin.length <= r.tin.length
  {
    hide Deliver;
    DropLength(r.tin, 2);
    DropLength(r.tin, 3);
    var x := r.tin.Contents();
    if |x| > 3 && x[1] in r.outs {
      DeliverShortens(v, Opened(r, x[1]), x[1]);
    }
  }

  /** A call consumes at least one byte of what begins with a unit. */
  lemma ReceiveProgresses(v: Variant, r: Received)
    requires r.Valid() && r.fault.NoFault? && CanRead(r.tin.Contents(), 0, r.target)
    requires r.target.None? ==> r.tin.length > 3
    requires r.target.Some? ==> r.outs[r.target.value].Free() > 0
    requires Receive(v, r).fault.NoFault?
    ensures Receive(v, r).tin.length < r.tin.length
  {
    hide Deliver, TakeHead;
    if r.target.Some? {
      DeliverProgresses(v, r, r.target.value);
      var r1 := Deliver(v, r, r.target.value);
      if r1.target.None? {
        HeadShortens(v, r1);
      }
    } else {
      HeadProgresses(v, r);
    }
  }

  lemma DeliverKeepsSizes(v: Variant, r: Received, t: byte, id: byte)
    requires r.Valid() && t in r.outs && id in r.outs
    ensures |Deliver(v, r, t).outs[id].data| == |r.outs[id].data|
  {
    hide Decode, Ring.Fill;
  }

  lemma HeadKeepsSizes(v: Variant, r: Received, id: byte)
    requires r.Valid() && r.target.None? && id in r.outs
    ensures |TakeHead(v, r).outs[id].data| == |r.outs[id].data|
  {
    hide Deliver, Ring.Drop;
    var x := r.tin.Contents();
    if |x| > 3 && x[1] in r.outs {
      DeliverKeepsSizes(
        v, Opened(r, x[1]), x[1], id);
    }
  }

  lemma ReceiveKeepsSizes(v: Variant, r: Received, id: byte)
    requires r.Valid() && id in r.outs
    ensures |Receive(v, r).outs[id].data| == |r.outs[id].data|
  {
    hide Deliver, TakeHead;
    if r.target.Some? {
      DeliverKeepsSizes(v, r, r.target.value, id);
      var r1 := Deliver(v, r, r.target.value);
      if r1.target.None? {
        HeadKeepsSizes(v, r1, id);
      }
    } else {
      HeadKeepsSizes(v, r, id);
    }
  }

  /** A call made by the system, as long as nothing fails. */
  lemma HandingFacts(v: Variant, s: System)
    requires s.Valid() && s.fault.NoFault? && Next(v, s, Receiving).fault.NoFault?
    ensures Receive(v, Reception(s)).fault.NoFault? && Next(v, s, Receiving) == Handing(v, s)
    ensures Handing(v, s).pipe.channel == s.pipe.channel && Handing(v, s).pipe.tout == s.pipe.tout
    ensures Handing(v, s).taken == s.taken && Handing(v, s).pipe.put == s.pipe.put
    ensures CanTake(v, s, Receiving) && FaultOf(v, s, Receiving).NoFault?
    ensures Perform(v, s, Receiving) == Handing(v, s)
    ensures Handing(v, s).outs == Receive(v, Reception(s)).outs && Reception(s).outs == s.outs && Reception(s).Valid()
    ensures Handing(v, s).outs.Keys == s.outs.Keys == s.ins.Keys && Handing(v, s).fault == s.fault
  {
    hide Receive;
  }

  lemma ArrivedFacts(s: System)
    requires Arrived(s)
    ensures s.Valid() && s.fault.NoFault? && Inv(s)
  {
  }

  /** The room that a connection has for what is still to come stays the same. */
  lemma RoomIsKept(s: System, s': System, id: byte)
    requires Inv(s) && Inv(s') && id in s.outs && id in s'.outs && OutBalanced(s, id) && OutBalanced(s', id)
    requires s'.pipe.put == s.pipe.put && s'.taken == s.taken
    requires |s'.outs[id].data| == |s.outs[id].data|
    ensures s'.outs[id].Free() - |Payload(Pending(s'), id)| == s.outs[id].Free() - |Payload(Pending(s), id)|
  {
    hide Payload, Pending, Ring.Contents;
    ContentsLength(s.outs[id]);
    ContentsLength(s'.outs[id]);
    PendingCompletes(s);
    PendingCompletes(s');
    PayloadConcat(s.pipe.got, Pending(s), id);
    PayloadConcat(s'.pipe.got, Pending(s'), id);
  }

  lemma ReceivingKeepsArrived(v: Variant, s: System)
    requires Arrived(s) && Next(v, s, Receiving).fault.NoFault?
    ensures Arrived(Next(v, s, Receiving))
  {
    hide Inv, Pending, Payload, Next, Handing, Receive, OutBalanced;
    ArrivedFacts(s);
    HandingFacts(v, s);
    var s' := Handing(v, s);
    StepKeepsInv(v, s, Receiving);
    assert Inv(s');
    forall id | id in s'.outs
      ensures OutBalanced(s', id) && |Payload(Pending(s'), id)| < s'.outs[id].Free()
    {
      HandingBalances(v, s, id);
      ReceiveKeepsSizes(v, Reception(s), id);
      RoomIsKept(s, s', id);
    }
  }

  /** One call takes something out of the tunnel's in_buf, or there is nothing it looks at. */
  lemma ReceivingDrains(v: Variant, s: System)
    requires Arrived(s) && Next(v, s, Receiving).fault.NoFault?
    ensures
      var s' := Next(v, s, Receiving);
      if Drained(s.pipe.tin, s.pipe.target) then s' == s else |s'.pipe.tin| < |s.pipe.tin|
  {
    hide Inv, Pending, Payload, Next, Receive, Read, CanRead;
    ArrivedFacts(s);
    HandingFacts(v, s);
    ArrivedReads(s);
    ShortReads(s.pipe.tin, s.pipe.target);
    var r := Reception(s);
    ReceptionFacts(s);
    if Drained(s.pipe.tin, s.pipe.target) {
      DrainedStays(v, s);
    } else {
      ReceiveProgresses(v, r);
      HandedLength(v, s);
    }
  }

  lemma ReceptionFacts(s: System)
    requires s.Valid()
    ensures Reception(s).Valid() && Reception(s).fault.NoFault?
    ensures Reception(s).target == s.pipe.target && Reception(s).outs == s.outs
    ensures Reception(s).tin.Contents() == s.pipe.tin && Reception(s).tin.length == |s.pipe.tin|
    ensures s.pipe.target.Some? ==> s.pipe.target.value in s.outs
  {
  }

  lemma DrainedStays(v: Variant, s: System)
    requires s.Valid() && s.fault.NoFault? && Drained(s.pipe.tin, s.pipe.target)
    ensures Next(v, s, Receiving) == s
  {
    var p := s.pipe;
    assert p.tin[0..] == p.tin && p.got + [] == p.got;
    assert Receive(v, Reception(s)) == Reception(s);
  }

  lemma HandedLength(v: Variant, s: System)
    requires s.Valid() && Receive(v, Reception(s)).fault.NoFault?
    ensures |Handing(v, s).pipe.tin| == Receive(v, Reception(s)).tin.length
  {
    hide Receive;
  }

  /** `n` calls. */
  function Calls(v: Variant, s: System, n: nat): System {
    if n == 0 then s else Next(v, Calls(v, s, n - 1), Receiving)
  }

  lemma {:induction false} CallsDrain(v: Variant, s: System, n: nat)
    requires Arrived(s) && (v.Corrected? || Calls(v, s, n).fault.NoFault?)
    ensures
      var e := Calls(v, s, n);
      && e.fault.NoFault? && Arrived(e)
      && (Drained(e.pipe.tin, e.pipe.target) || |e.pipe.tin| + n <= |s.pipe.tin|)
  {
    hide Inv, Next, Drained, Pending, Payload, OutBalanced;
    if n > 0 {
      var x := Calls(v, s, n - 1);
      FaultStays(v, x);
      CallsDrain(v, s, n - 1);
      if v.Corrected? {
        CorrectedCall(v, x);
      }
      ReceivingKeepsArrived(v, x);
      ReceivingDrains(v, x);
    }
  }

  lemma CorrectedCall(v: Variant, s: System)
    requires Arrived(s) && v.Corrected?
    ensures Next(v, s, Receiving).fault.NoFault?
  {
    hide Receive, Pending, Payload, OutBalanced;
    CorrectedStepNeverFails(s, Receiving);
  }

  lemma FaultStays(v: Variant, s: System)
    ensures Next(v, s, Receiving).fault.NoFault? ==> s.fault.NoFault?
  {
    hide Perform;
  }

  lemma DrainedIfNothing(x: seq<byte>, target: Option<byte>)
    ensures x == [] ==> Drained(x, target)
  {
  }

  /** What is left behind when nothing more is handed out. */
  lemma CallsHandAll(v: Variant, s: System, n: nat)
    requires Arrived(s) && n >= |s.pipe.tin| && (v.Corrected? || Calls(v, s, n).fault.NoFault?)
    ensures
      var e := Calls(v, s, n);
      && Arrived(e) && e.Valid() && Drained(e.pipe.tin, e.pipe.target) && e.pipe.put == s.pipe.put
      && e.pipe.got + Pending(e) == e.pipe.put
      && Pending(e) == if e.pipe.tin == [] then [] else [Atom.Open(e.pipe.tin[1])]
  {
    hide Arrived, Inv, Pending, Drained;
    CallsDrain(v, s, n);
    var e := Calls(v, s, n);
    DrainedIfNothing(e.pipe.tin, e.pipe.target);
    ArrivedFacts(e);
    PendingCompletes(e);
    CallsKeepRest(v, s, n);
    DrainedPending(e);
  }

  /** After any run the accounts are balanced: a state with empty tunnel buffer and wire in front of
      the receiver, and with room, is one from which everything arrives. */
  lemma RunArrives(v: Variant, s: System, steps: seq<Step>)
    requires Init(s) && (v.Corrected? || Run(v, s, steps).fault.NoFault?)
    requires
      var e := Run(v, s, steps);
      e.Valid() ==>
        && e.ins.Keys != {} && e.pipe.channel == [] && e.pipe.tout == []
        && forall id :: id in e.outs ==> |Payload(Pending(e), id)| < e.outs[id].Free()
    ensures Arrived(Run(v, s, steps))
    ensures forall id :: id in Run(v, s, steps).ins ==> InBalanced(Run(v, s, steps), id)
  {
    hide Inv, Run, Pending, Payload, InBalanced, OutBalanced;
    var e := Run(v, s, steps);
    RunKeepsKeys(v, s, steps);
    forall id | id in s.ins
      ensures e.Valid() && e.fault.NoFault? && Inv(e) && id in e.ins && InBalanced(e, id) && OutBalanced(e, id)
    {
      RunIsGood(v, s, steps, id);
    }
  }

  lemma RunKeepsKeys(v: Variant, s: System, steps: seq<Step>)
    requires s.Valid()
    ensures Run(v, s, steps).Valid() && Run(v, s, steps).ins.Keys == s.ins.Keys
  {
    forall x: System, t | x.Valid() && x.ins.Keys == s.ins.Keys
      ensures Next(v, x, t).Valid() && Next(v, x, t).ins.Keys == s.ins.Keys
    {
      hide Perform, CanTake, System.Valid;
    }
    RunKeeps((x, t) => Next(v, x, t), (x: System) => x.Valid() && x.ins.Keys == s.ins.Keys, s, steps, |steps|);
  }

  lemma NoPayload(got: seq<Atom>, rest: seq<Atom>, id: byte)
    requires rest == [] || (|rest| == 1 && rest[0].Open?)
    ensures Payload(got + rest, id) == Payload(got, id)
  {
    PayloadConcat(got, rest, id);
    if rest != [] {
      PayloadOfOne(rest[0], id);
      assert rest == [rest[0]];
    }
  }

  /** Everything arrives. After every run, shipped up to the first fault or corrected: once all the
      bytes are in front of the receiver and each out_buf has more room than its payload there,
      calling it as often as there are bytes leaves at most one empty frame in the tunnel's in_buf;
      and for every connection, what left its out_buf, what waits there and what waits in its
      in_buf are, one behind the other, the bytes ever put in. */
  lemma EverythingArrives(v: Variant, s: System, steps: seq<Step>, n: nat, id: byte)
    requires Init(s) && id in s.ins
    requires v.Corrected? || Calls(v, Run(v, s, steps), n).fault.NoFault?
    requires
      var x := Run(v, s, steps);
      x.Valid() ==>
        && x.pipe.channel == [] && x.pipe.tout == [] && n >= |x.pipe.tin|
        && forall i :: i in x.outs ==> |Payload(Pending(x), i)| < x.outs[i].Free()
    ensures
      var e := Calls(v, Run(v, s, steps), n);
      && e.Valid() && id in e.ins && Drained(e.pipe.tin, e.pipe.target)
      && e.taken[id] + e.outs[id].Contents() + e.ins[id].Contents() == e.fed[id]
  {
    hide Run, Arrived, Drained, Payload, Pending, Next;
    var x := Run(v, s, steps);
    RunKeepsKeys(v, s, steps);
    CallsKeepRest(v, x, n);
    RunArrives(v, s, steps);
    CallsHandAll(v, x, n);
    ArrivedAccounts(x, Calls(v, x, n), id);
  }

  lemma ArrivedAccounts(x: System, e: System, id: byte)
    requires x.Valid() && id in x.ins && InBalanced(x, id) && Arrived(e)
    requires e.ins == x.ins && e.fed == x.fed && e.pipe.put == x.pipe.put
    requires e.pipe.got + Pending(e) == e.pipe.put
    requires Pending(e) == [] || (|Pending(e)| == 1 && Pending(e)[0].Open?)
    ensures e.taken[id] + e.outs[id].Contents() + e.ins[id].Contents() == e.fed[id]
  {
    hide Payload, Pending, Inv, Ring.Contents;
    ArrivedFacts(e);
    NoPayload(e.pipe.got, Pending(e), id);
  }

  lemma {:induction false} CallsKeepRest(v: Variant, s: System, n: nat)
    ensures
      var e := Calls(v, s, n);
      e.pipe.put == s.pipe.put && e.ins == s.ins && e.fed == s.fed
      && (e.fault.NoFault? ==> s.fault.NoFault?)
  {
    hide Next;
    if n > 0 {
      CallsKeepRest(v, s, n - 1);
      NextKeepsRest(v, Calls(v, s, n - 1));
      FaultStays(v, Calls(v, s, n - 1));
    }
  }

  lemma NextKeepsRest(v: Variant, s: System)
    ensures
      var e := Next(v, s, Receiving);
      e.pipe.put == s.pipe.put && e.ins == s.ins && e.fed == s.fed
  {
    hide Receive, Handing;
    if s.Valid() && s.fault.NoFault? && FaultOf(v, s, Receiving).NoFault? {
      HandingKeepsRest(v, s);
    }
  }

  lemma HandingKeepsRest(v: Variant, s: System)
    requires s.Valid() && Receive(v, Reception(s)).fault.NoFault?
    ensures var e := Handing(v, s); e.pipe.put == s.pipe.put && e.ins == s.ins && e.fed == s.fed
  {
    hide Receive;
  }

  lemma DrainedPending(s: System)
    requires Arrived(s) && Drained(s.pipe.tin, s.pipe.target)
    ensures Pending(s) == if s.pipe.tin == [] then [] else [Atom.Open(s.pipe.tin[1])]
  {
    hide Inv, Drained;
    ArrivedFacts(s);
    ArrivedReads(s);
    DrainedReads(s.pipe.tin, s.pipe.target);
  }

  lemma DrainedReads(x: seq<byte>, target: Option<byte>)
    requires Drained(x, target)
    ensures Read(x, Reader(0, target, [])).out == if x == [] then [] else [Atom.Open(x[1])]
  {
    if x != [] {
      var r := ReadOne(x, Reader(0, None, []));
      assert r == Reader(2, Some(x[1]), [Atom.Open(x[1])]);
      var e := ReadOne(x, r);
      assert e == Reader(3, None, r.out) && Read(x, e) == e;
    }
  }
}
