/** One direction of the forwarder as a system of steps: bytes come into the in_buf of a
    connection, frames and commands go into the tunnel, the tunnel moves any number of bytes at
    a time, the receiver decodes, bytes leave the out_buf of a connection. The steps come in any
    order and with any sizes. */
module Tunnel {
  import opened Basics
  import opened Ring
  import opened Framing
  import opened Wire
  import opened Receiver
  import opened Pipes
  import opened Payloads
  import opened Runs

  datatype System = System(
    ins: map<byte, Ring>,          // sender: the in_buf of every connection
    tout: Ring,                    // sender: the out_buf of the tunnel
    tin: Ring,                     // receiver: the in_buf of the tunnel
    outs: map<byte, Ring>,         // receiver: the out_buf of every connection
    pipe: Pipe,                    // the bytes in between and the record of what went through
    fed: map<byte, seq<byte>>,     // record: bytes ever put into the in_buf
    taken: map<byte, seq<byte>>,   // record: bytes taken out of the out_buf
    fault: Fault)
  {
    predicate Valid() {
      && tout.Valid() && Before(tin, pipe.target, outs).Valid()
      && (forall id :: id in ins ==> ins[id].Valid())
      && ins.Keys == outs.Keys == fed.Keys == taken.Keys && 0 !in ins
      && tin.Contents() == pipe.tin && tout.Contents() == pipe.tout
    }
  }

  predicate Init(s: System) {
    && s.Valid() && s.fault.NoFault?
    && (forall id :: id in s.ins ==> s.ins[id].length == 0 && s.outs[id].length == 0)
    && (forall id :: id in s.ins ==> s.fed[id] == [] && s.taken[id] == [])
    && s.pipe == Pipe([], [], [], None, [], 0, [], [])
  }

  datatype Step =
    | Feed(id: byte, bytes: seq<byte>)      // buf_read of a connection returned these bytes
    | EncodeData(id: byte)                  // encode
    | EncodeCommand(command: Command)       // encode_command
    | Push(n: nat)                          // buf_write of the sender's tunnel socket
    | Pull(n: nat)                          // buf_read of the receiver's tunnel socket
    | Receiving                             // recv_from_tunnel
    | Transmit(id: byte, n: nat)            // buf_write of a connection

  /** What can happen in state `s`; nothing happens after a fault. */
  predicate CanTake(v: Variant, s: System, step: Step)
    requires s.Valid()
  {
    s.fault.NoFault? &&
    match step
    case Feed(id, bytes) => id in s.ins && |bytes| <= SegTotal(s.ins[id].WritingSegs(v))
    case EncodeData(id) => id in s.ins
    case EncodeCommand(c) => s.tout.Free() >= 5
    case Push(n) => n <= s.tout.length
    case Pull(n) => n <= |s.pipe.channel| && n <= SegTotal(s.tin.WritingSegs(v))
    case Receiving => true
    case Transmit(id, n) => id in s.outs && n <= s.outs[id].length
  }

  /** The fault the step runs into, if any. */
  function FaultOf(v: Variant, s: System, step: Step): Fault
    requires s.Valid() && CanTake(v, s, step)
  {
    match step
    case Feed(id, bytes) => if Overwrites(v, s.ins[id], bytes) then WroteOverData else NoFault
    case EncodeData(id) =>
      if EncodeStep(v, s.ins[id], s.tout, id).frame.Some? && v.Shipped? && s.tout.Clobbers()
      then WroteOverData
      else NoFault
    case EncodeCommand(c) =>
      if v.Shipped? && s.tout.Clobbers() then WroteOverData else NoFault
    case Pull(n) => if Overwrites(v, s.tin, s.pipe.channel[..n]) then WroteOverData else NoFault
    case Receiving => Receive(v, Before(s.tin, s.pipe.target, s.outs)).fault
    case _ => NoFault
  }

  function Feeding(v: Variant, s: System, id: byte, bytes: seq<byte>): (s': System)
    requires s.Valid() && id in s.ins
    ensures s'.Valid() && s'.ins.Keys == s.ins.Keys
  {
    System(s.ins[id := s.ins[id].Fill(v, bytes)], s.tout, s.tin, s.outs, s.pipe,
           s.fed[id := s.fed[id] + bytes], s.taken, s.fault)
  }

  function EncodingData(v: Variant, s: System, id: byte): (s': System)
    requires s.Valid() && CanTake(v, s, EncodeData(id)) && FaultOf(v, s, EncodeData(id)).NoFault?
    ensures s'.Valid() && s'.ins.Keys == s.ins.Keys
  {
    var e := EncodeStep(v, s.ins[id], s.tout, id);
    if e.frame.None? then s
    else
      EncodeMovesBytes(v, s.ins[id], s.tout, id);
      System(s.ins[id := e.src], e.dst, s.tin, s.outs, s.pipe.Encode(Data(id, e.frame.value)),
             s.fed, s.taken, s.fault)
  }

  function EncodingCommand(v: Variant, s: System, c: Command): (s': System)
    requires s.Valid() && s.tout.Free() >= 5 && !(v.Shipped? && s.tout.Clobbers())
    ensures s'.Valid() && s'.ins.Keys == s.ins.Keys
  {
    FillAppends(v, s.tout, CommandFrame(c.cmd, c.arg));
    System(s.ins, s.tout.Fill(v, CommandFrame(c.cmd, c.arg)), s.tin, s.outs,
           s.pipe.Encode(Order(c)), s.fed, s.taken, s.fault)
  }

  function Pushing(s: System, n: nat): (s': System)
    requires s.Valid() && n <= s.tout.length
    ensures s'.Valid() && s'.ins.Keys == s.ins.Keys
  {
    DropDropsPrefix(s.tout, n);
    System(s.ins, s.tout.Drop(n), s.tin, s.outs, s.pipe.Push(n), s.fed, s.taken, s.fault)
  }

  function Pulling(v: Variant, s: System, n: nat): (s': System)
    requires s.Valid() && n <= |s.pipe.channel| && n <= SegTotal(s.tin.WritingSegs(v))
    requires !Overwrites(v, s.tin, s.pipe.channel[..n])
    ensures s'.Valid() && s'.ins.Keys == s.ins.Keys
  {
    WritingSegsSlots(v, s.tin);
    FillAppends(v, s.tin, s.pipe.channel[..n]);
    System(s.ins, s.tout, s.tin.Fill(v, s.pipe.channel[..n]), s.outs, s.pipe.Pull(n),
           s.fed, s.taken, s.fault)
  }

  function Handing(v: Variant, s: System): (s': System)
    requires s.Valid() && Receive(v, Before(s.tin, s.pipe.target, s.outs)).fault.NoFault?
    ensures s'.Valid() && s'.ins.Keys == s.ins.Keys
  {
    var r := Receive(v, Before(s.tin, s.pipe.target, s.outs));
    ReceiveConsumes(v, Before(s.tin, s.pipe.target, s.outs));
    System(s.ins, s.tout, r.tin, r.outs, s.pipe.Consume(r.used, r.target, r.got),
           s.fed, s.taken, s.fault)
  }

  function Transmitting(s: System, id: byte, n: nat): (s': System)
    requires s.Valid() && id in s.outs && n <= s.outs[id].length
    ensures s'.Valid() && s'.ins.Keys == s.ins.Keys
  {
    System(s.ins, s.tout, s.tin, s.outs[id := s.outs[id].Drop(n)], s.pipe, s.fed,
           s.taken[id := s.taken[id] + s.outs[id].Contents()[..n]], s.fault)
  }

  function Failing(s: System, f: Fault): (s': System)
    requires s.Valid()
    ensures s'.Valid() && s'.ins.Keys == s.ins.Keys
  {
    System(s.ins, s.tout, s.tin, s.outs, s.pipe, s.fed, s.taken, f)
  }

  function Perform(v: Variant, s: System, step: Step): (s': System)
    requires s.Valid() && CanTake(v, s, step)
    ensures s'.Valid() && s'.ins.Keys == s.ins.Keys
  {
    if !FaultOf(v, s, step).NoFault? then Failing(s, FaultOf(v, s, step))
    else
      match step
      case Feed(id, bytes) => Feeding(v, s, id, bytes)
      case EncodeData(id) => EncodingData(v, s, id)
      case EncodeCommand(c) => EncodingCommand(v, s, c)
      case Push(n) => Pushing(s, n)
      case Pull(n) => Pulling(v, s, n)
      case Receiving => Handing(v, s)
      case Transmit(id, n) => Transmitting(s, id, n)
  }

  /** A step that cannot be taken is passed over. */
  function Next(v: Variant, s: System, step: Step): System {
    if s.Valid() && CanTake(v, s, step) then Perform(v, s, step) else s
  }

  function Run(v: Variant, s: System, steps: seq<Step>): System {
    RunTo((x, t) => Next(v, x, t), s, steps, |steps|)
  }

  // ---------------------------------------------------------------- invariants

  /** Every frame put into the tunnel is for a connection that is there. */
  predicate KnownTargets(s: System) {
    forall a :: a in s.pipe.put && a.Open? ==> a.id in s.ins
  }

  predicate Inv(s: System) {
    s.Valid() && s.pipe.Inv() && KnownTargets(s)
  }

  /** What came into the in_buf of connection `id` was put into the tunnel or is still there. */
  predicate InBalanced(s: System, id: byte)
    requires s.Valid() && id in s.ins
  {
    s.fed[id] == Payload(s.pipe.put, id) + s.ins[id].Contents()
  }

  /** What the receiver handed to connection `id` has left its out_buf or is still there. */
  predicate OutBalanced(s: System, id: byte)
    requires s.Valid() && id in s.ins
  {
    s.taken[id] + s.outs[id].Contents() == Payload(s.pipe.got, id)
  }
}
