/** What every step of one direction of the forwarder keeps. */
module TunnelSteps {
  import opened Basics
  import opened Ring
  import opened Framing
  import opened Wire
  import opened Receiver
  import opened Pipes
  import opened Payloads
  import opened Tunnel

  lemma FeedKeeps(v: Variant, s: System, i: byte, bytes: seq<byte>, id: byte)
    requires s.Valid() && id in s.ins && InBalanced(s, id)
    requires CanTake(v, s, Feed(i, bytes)) && FaultOf(v, s, Feed(i, bytes)).NoFault?
    ensures InBalanced(Feeding(v, s, i, bytes), id)
  {
    if i == id {
      var c := s.ins[i].Contents();
      assert s.ins[i].Fill(v, bytes).Contents() == c + bytes by {
        WritingSegsSlots(v, s.ins[i]);
        FillAppends(v, s.ins[i], bytes);
      }
      assert (Payload(s.pipe.put, i) + c) + bytes == Payload(s.pipe.put, i) + (c + bytes);
    }
  }

  lemma TransmitKeeps(s: System, i: byte, n: nat, id: byte)
    requires s.Valid() && id in s.ins && OutBalanced(s, id)
    requires i in s.outs && n <= s.outs[i].length
    ensures OutBalanced(Transmitting(s, i, n), id)
  {
    if i == id {
      var c := s.outs[i].Contents();
      assert s.outs[i].Drop(n).Contents() == c[n..] by {
        DropDropsPrefix(s.outs[i], n);
      }
      assert (s.taken[i] + c[..n]) + c[n..] == s.taken[i] + c;
    }
  }

  lemma PutPayload(put: seq<Atom>, i: byte, p: seq<byte>, id: byte)
    ensures Payload(put + Atoms(Data(i, p)), id) == Payload(put, id) + if i == id then p else []
  {
    PayloadConcat(put, [Open(i)] + Bytes(i, p), id);
    PayloadOfFrame(i, p, id);
  }

  lemma EncodeDataKeeps(v: Variant, s: System, i: byte, id: byte)
    requires s.Valid() && id in s.ins && InBalanced(s, id)
    requires CanTake(v, s, EncodeData(i)) && FaultOf(v, s, EncodeData(i)).NoFault?
    ensures InBalanced(EncodingData(v, s, i), id)
  {
    hide EncodeStep, Payload, Atoms, Frame;
    var e := EncodeStep(v, s.ins[i], s.tout, i);
    if e.frame.Some? {
      var p := e.frame.value;
      assert p + e.src.Contents() == s.ins[i].Contents() by {
        EncodeMovesBytes(v, s.ins[i], s.tout, i);
      }
      PutPayload(s.pipe.put, i, p, id);
      assert (Payload(s.pipe.put, id) + p) + e.src.Contents()
          == Payload(s.pipe.put, id) + (p + e.src.Contents());
      assert Payload(s.pipe.put, id) + [] == Payload(s.pipe.put, id);
    }
  }

  lemma EncodeCommandKeeps(put: seq<Atom>, c: Command, id: byte)
    ensures Payload(put + Atoms(Order(c)), id) == Payload(put, id)
  {
    PayloadConcat(put, [Given(c)], id);
    PayloadOfOne(Given(c), id);
    assert Payload(put, id) + [] == Payload(put, id);
  }

  /** The receiver of the system as `Receive` sees it. */
  function Reception(s: System): Received {
    Before(s.tin, s.pipe.target, s.outs)
  }

  /** `r` is the receiver at the end of the tunnel `p`. */
  predicate AtEnd(p: Pipe, r: Received) {
    r.Valid() && r.tin.Contents() == p.tin && r.target == p.target
    && r.got == [] && r.used == 0 && r.fault.NoFault?
  }

  lemma EndSees(p: Pipe, r: Received)
    requires p.Flowing() && AtEnd(p, r)
    ensures Sees(p.wire, p.at, p.at + |p.tin|, r)
    ensures Standing(p.at, p.got, r) == Reader(p.at, p.target, p.got)
  {
    forall j | 0 <= j < |p.tin|
      ensures p.tin[j] == p.wire[p.at + j]
    {
      assert p.wire[p.at..][j] == p.InTunnel()[j];
    }
    assert p.got + [] == p.got;
  }

  lemma ReceiveKeepsPipe(v: Variant, p: Pipe, r: Received)
    requires p.Inv() && AtEnd(p, r) && Receive(v, r).fault.NoFault?
    ensures Receive(v, r).used <= |p.tin|
    ensures p.Consume(Receive(v, r).used, Receive(v, r).target, Receive(v, r).got).Inv()
  {
    hide Read, Receive;
    var r' := Receive(v, r);
    EndSees(p, r);
    ReceiveReads(v, p.wire, p.at, p.at + |p.tin|, p.got, r);
    assert Standing(p.at, p.got, r') == Reader(p.at + r'.used, r'.target, p.got + r'.got);
    ReceiveConsumes(v, r);
    ConsumeKeeps(p, r'.used, r'.target, r'.got);
  }

  lemma HandingBalances(v: Variant, s: System, id: byte)
    requires s.Valid() && id in s.ins && OutBalanced(s, id)
    requires Receive(v, Reception(s)).fault.NoFault?
    ensures OutBalanced(Handing(v, s), id)
  {
    assert s.pipe.got + [] == s.pipe.got;
    ReceiveHands(v, Reception(s), s.pipe.got, s.taken[id], id);
  }

  lemma EncodeKnown(s: System, put': seq<Atom>, item: Item)
    requires KnownTargets(s) && put' == s.pipe.put + Atoms(item)
    requires item.Data? ==> item.id in s.ins
    ensures forall a :: a in put' && a.Open? ==> a.id in s.ins
  {
    forall a | a in put' && a.Open?
      ensures a.id in s.ins
    {
      assert a in s.pipe.put || a in Atoms(item);
    }
  }

  /** Every step that runs into no fault keeps the order of the tunnel. */
  lemma StepKeepsInv(v: Variant, s: System, step: Step)
    requires Inv(s) && CanTake(v, s, step) && FaultOf(v, s, step).NoFault?
    ensures Inv(Perform(v, s, step))
  {
    var s' := Perform(v, s, step);
    match step {
      case Feed(id, bytes) =>
      case EncodeData(id) =>
        var e := EncodeStep(v, s.ins[id], s.tout, id);
        if e.frame.Some? {
          EncodeKeeps(s.pipe, Data(id, e.frame.value));
          EncodeKnown(s, s'.pipe.put, Data(id, e.frame.value));
        }
      case EncodeCommand(c) =>
        EncodeKeeps(s.pipe, Order(c));
        EncodeKnown(s, s'.pipe.put, Order(c));
      case Push(n) => PushKeeps(s.pipe, n);
      case Pull(n) => PullKeeps(s.pipe, n);
      case Receiving => ReceiveKeepsPipe(v, s.pipe, Reception(s));
      case Transmit(id, n) =>
    }
  }

  /** Every step that runs into no fault keeps the account of every connection. */
  lemma StepKeepsBalance(v: Variant, s: System, step: Step, id: byte)
    requires s.Valid() && id in s.ins && InBalanced(s, id) && OutBalanced(s, id)
    requires CanTake(v, s, step) && FaultOf(v, s, step).NoFault?
    ensures InBalanced(Perform(v, s, step), id) && OutBalanced(Perform(v, s, step), id)
  {
    match step {
      case Feed(i, bytes) => FeedKeeps(v, s, i, bytes, id);
      case EncodeData(i) => EncodeDataKeeps(v, s, i, id);
      case EncodeCommand(c) => EncodeCommandKeeps(s.pipe.put, c, id);
      case Push(n) =>
      case Pull(n) =>
      case Receiving => HandingBalances(v, s, id);
      case Transmit(i, n) => TransmitKeeps(s, i, n, id);
    }
  }

  /** No step of a system in order meets a head that the receiver would reject. */
  lemma StepNeverViolates(v: Variant, s: System, step: Step)
    requires Inv(s) && CanTake(v, s, step)
    ensures !FaultOf(v, s, step).Violation?
  {
    if step.Receiving? {
      EndSees(s.pipe, Reception(s));
      ReceiveAccepts(v, s.pipe.wire, s.pipe.at, s.pipe.at + |s.pipe.tin|, s.pipe.got, Reception(s));
    }
  }

  /** With the corrections no step fails. */
  lemma CorrectedStepNeverFails(s: System, step: Step)
    requires Inv(s) && CanTake(Corrected, s, step)
    ensures FaultOf(Corrected, s, step).NoFault?
  {
    StepNeverViolates(Corrected, s, step);
    CorrectedReceiveIsSafe(Reception(s));
  }
}
