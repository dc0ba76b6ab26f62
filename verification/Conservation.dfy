/** What holds of every run of one direction of the forwarder. */
module Conservation {
  import opened Basics
  import opened Ring
  import opened Wire
  import opened Payloads
  import opened Runs
  import opened Tunnel
  import opened TunnelSteps

  /** The system has not failed, or has failed at a place the code does not guard; as long as
      it has not failed the tunnel is in order and the account of connection `id` is balanced. */
  predicate Good(v: Variant, s: System, id: byte) {
    && s.Valid() && id in s.ins
    && !s.fault.Violation? && (v.Corrected? ==> s.fault.NoFault?)
    && (s.fault.NoFault? ==> Inv(s) && InBalanced(s, id) && OutBalanced(s, id))
  }

  lemma InitIsGood(v: Variant, s: System, id: byte)
    requires Init(s) && id in s.ins
    ensures Good(v, s, id)
  {
    assert s.pipe.wire[0..] == s.pipe.InTunnel();
  }

  lemma NextKeepsGood(v: Variant, s: System, step: Step, id: byte)
    requires Good(v, s, id)
    ensures Good(v, Next(v, s, step), id)
  {
    if CanTake(v, s, step) {
      StepNeverViolates(v, s, step);
      if FaultOf(v, s, step).NoFault? {
        StepKeepsInv(v, s, step);
        StepKeepsBalance(v, s, step, id);
      } else if v.Corrected? {
        CorrectedStepNeverFails(s, step);
      }
    }
  }

  lemma RunIsGood(v: Variant, s: System, steps: seq<Step>, id: byte)
    requires Init(s) && id in s.ins
    ensures Good(v, Run(v, s, steps), id)
  {
    InitIsGood(v, s, id);
    forall x, t | Good(v, x, id)
      ensures Good(v, Next(v, x, t), id)
    {
      NextKeepsGood(v, x, t, id);
    }
    RunKeeps((x, t) => Next(v, x, t), x => Good(v, x, id), s, steps, |steps|);
  }

  /** What the bytes between the two ends still hold, read from the receiver's state on. */
  function Pending(s: System): seq<Atom>
    requires s.Valid()
  {
    Read(s.pipe.InTunnel(), Reader(0, s.pipe.target, [])).out
  }

  lemma PendingCompletes(s: System)
    requires Inv(s)
    ensures s.pipe.got + Pending(s) == s.pipe.put
  {
    var p := s.pipe;
    ReadMoves(p.wire, p.InTunnel(), p.at, Reader(p.at, p.target, p.got));
    ReadAppends(p.InTunnel(), Reader(0, p.target, []), p.got);
    assert p.got + [] == p.got;
  }

  /** Conservation and order. In every run that has met none of the two unguarded faults, and
      in every run of the corrected code: what the receiver has handed out, followed by what is
      still in the tunnel, is what was encoded, commands and data in one order; and for every
      connection the bytes taken from its out_buf, those waiting there, its payload in the tunnel
      and those waiting in its in_buf are, one behind the other, the bytes ever put in. */
  lemma StreamsAreConserved(v: Variant, s: System, steps: seq<Step>, id: byte)
    requires Init(s) && id in s.ins
    requires v.Corrected? || Run(v, s, steps).fault.NoFault?
    ensures
      var e := Run(v, s, steps);
      && e.Valid() && id in e.ins && e.fault.NoFault?
      && e.pipe.got + Pending(e) == e.pipe.put
      && e.taken[id] + e.outs[id].Contents() + Payload(Pending(e), id) + e.ins[id].Contents()
         == e.fed[id]
  {
    RunIsGood(v, s, steps, id);
    var e := Run(v, s, steps);
    PendingCompletes(e);
    PayloadConcat(e.pipe.got, Pending(e), id);
  }

  /** A receiver in step with the sender ends the process over a bad head in no run at all. */
  lemma NoRunIsRejected(v: Variant, s: System, steps: seq<Step>, id: byte)
    requires Init(s) && id in s.ins
    ensures !Run(v, s, steps).fault.Violation?
  {
    RunIsGood(v, s, steps, id);
  }
}
