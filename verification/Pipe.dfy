/** The tunnel between two hosts as plain sequences: what waits in the sender's out_buf, what is
    on its way, what waits in the receiver's in_buf, and how far the receiver has come. */
module Pipes {
  import opened Basics
  import opened Wire

  datatype Pipe = Pipe(
    tout: seq<byte>,
    channel: seq<byte>,
    tin: seq<byte>,
    target: Option<byte>,
    wire: seq<byte>,    // every byte put into the tunnel so far
    at: nat,            // of these, consumed by the receiver
    put: seq<Atom>,     // what was encoded, in order
    got: seq<Atom>)     // what the receiver has handed out, in order
  {
    /** All bytes between the two ends, in the order in which they arrive. */
    function InTunnel(): seq<byte> {
      tin + (channel + tout)
    }

    /** The bytes in the tunnel are the unconsumed end of everything put into it. */
    predicate Flowing() {
      at <= |wire| && wire[at..] == InTunnel()
    }

    /** Reading on from the receiver's state gives exactly what was encoded, and all of it. */
    predicate InOrder() {
      Read(wire, Reader(at, target, got)) == Reader(|wire|, None, put)
    }

    predicate Inv() {
      Flowing() && InOrder()
    }

    function Encode(item: Item): Pipe {
      Pipe(tout + Encoding(item), channel, tin, target,
           wire + Encoding(item), at, put + Atoms(item), got)
    }

    function Push(n: nat): Pipe
      requires n <= |tout|
    {
      Pipe(tout[n..], channel + tout[..n], tin, target, wire, at, put, got)
    }

    function Pull(n: nat): Pipe
      requires n <= |channel|
    {
      Pipe(tout, channel[n..], tin + channel[..n], target, wire, at, put, got)
    }

    /** The receiver took `used` bytes, stands in the frame of `target'` and read `news`. */
    function Consume(used: nat, target': Option<byte>, news: seq<Atom>): Pipe
      requires used <= |tin|
    {
      Pipe(tout, channel, tin[used..], target', wire, at + used, put, got + news)
    }
  }

  lemma EncodeReads(w: seq<byte>, r: Reader, put: seq<Atom>, item: Item)
    requires ItemOk(item) && Read(w, r) == Reader(|w|, None, put)
    ensures Read(w + Encoding(item), r) == Reader(|w + Encoding(item)|, None, put + Atoms(item))
  {
    ReadGoesOn(w, Encoding(item), r);
    ReadItem(w, item, put);
  }

  lemma AppendFlows(p: Pipe, f: seq<byte>)
    requires p.Flowing()
    ensures (p.wire + f)[p.at..] == p.tin + (p.channel + (p.tout + f))
  {
    assert (p.wire + f)[p.at..] == p.wire[p.at..] + f;
  }

  lemma EncodeKeeps(p: Pipe, item: Item)
    requires p.Inv() && ItemOk(item)
    ensures p.Encode(item).Inv()
  {
    AppendFlows(p, Encoding(item));
    EncodeReads(p.wire, Reader(p.at, p.target, p.got), p.put, item);
  }

  lemma PushKeeps(p: Pipe, n: nat)
    requires p.Inv() && n <= |p.tout|
    ensures p.Push(n).Inv()
  {
    assert (p.channel + p.tout[..n]) + p.tout[n..] == p.channel + p.tout;
  }

  lemma PullKeeps(p: Pipe, n: nat)
    requires p.Inv() && n <= |p.channel|
    ensures p.Pull(n).Inv()
  {
    var c := p.channel;
    assert (p.tin + c[..n]) + (c[n..] + p.tout) == p.tin + (c + p.tout);
  }

  lemma ConsumeFlows(p: Pipe, used: nat)
    requires p.Flowing() && used <= |p.tin|
    ensures p.at + used <= |p.wire| && p.wire[p.at + used..] == p.tin[used..] + (p.channel + p.tout)
  {
    assert p.wire[p.at + used..] == p.wire[p.at..][used..];
  }

  lemma ConsumeKeeps(p: Pipe, used: nat, target': Option<byte>, news: seq<Atom>)
    requires p.Inv() && used <= |p.tin|
    requires Read(p.wire, Reader(p.at, p.target, p.got))
             == Read(p.wire, Reader(p.at + used, target', p.got + news))
    ensures p.Consume(used, target', news).Inv()
  {
    ConsumeFlows(p, used);
  }
}
