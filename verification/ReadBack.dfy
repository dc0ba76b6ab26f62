/** The receiver reads back what the sender encoded: all of it, except for an empty frame at the
    very end, which is too short for it to look at. */
module ReadBack {
  import opened Basics
  import opened Ring
  import opened Framing
  import opened Wire
  import opened Receiver

  /** The bytes and the meaning of the items from the `n`-th on. */
  function EncodingFrom(items: seq<Item>, n: nat): seq<byte>
    requires n <= |items|
    decreases |items| - n
  {
    if n == |items| then [] else Encoding(items[n]) + EncodingFrom(items, n + 1)
  }

  function AtomsFrom(items: seq<Item>, n: nat): seq<Atom>
    requires n <= |items|
    decreases |items| - n
  {
    if n == |items| then [] else Atoms(items[n]) + AtomsFrom(items, n + 1)
  }

  lemma {:induction false} FrontAndRest(items: seq<Item>, n: nat)
    requires n <= |items|
    ensures EncodingAll(items, n) + EncodingFrom(items, n) == EncodingFrom(items, 0)
    ensures AtomsAll(items, n) + AtomsFrom(items, n) == AtomsFrom(items, 0)
  {
    hide Encoding, Atoms;
    if n > 0 {
      FrontAndRest(items, n - 1);
      JoinsInParts(EncodingAll(items, n - 1), Encoding(items[n - 1]), EncodingFrom(items, n), []);
      JoinsInParts(AtomsAll(items, n - 1), Atoms(items[n - 1]), AtomsFrom(items, n), []);
    }
  }

  lemma AllIsFromStart(items: seq<Item>)
    ensures EncodingAll(items, |items|) == EncodingFrom(items, 0)
    ensures AtomsAll(items, |items|) == AtomsFrom(items, 0)
  {
    FrontAndRest(items, |items|);
    assert EncodingAll(items, |items|) + [] == EncodingAll(items, |items|);
    assert AtomsAll(items, |items|) + [] == AtomsAll(items, |items|);
  }

  /** The payload bytes an item brings for connection `id`. */
  function Weight(item: Item, id: byte): nat {
    if item.Data? && item.id == id then |item.payload| else 0
  }

  /** The payload bytes for connection `id` from the `n`-th item on. */
  function Volume(items: seq<Item>, n: nat, id: byte): nat
    requires n <= |items|
    decreases |items| - n
  {
    if n == |items| then 0 else Weight(items[n], id) + Volume(items, n + 1, id)
  }

  /** The item is for a connection that is there and has room for more than the payload. */
  predicate Fits(item: Item, r: Received)
    requires r.Valid()
  {
    item.Data? ==> item.id != 0 && item.id in r.outs && |item.payload| < r.outs[item.id].Free()
  }

  // ---------------------------------------------------------------- one call

  /** The call consumed `n` bytes, read `item` and stands between two frames. */
  predicate Took(r: Received, r': Received, item: Item, n: nat)
    requires r.Valid() && r'.Valid() && n <= r.tin.length
  {
    && r'.target.None? && r'.got == r.got + Atoms(item) && r'.outs.Keys == r.outs.Keys
    && r'.tin.Contents() == r.tin.Contents()[n..]
    && (forall id :: id in r.outs ==> r'.outs[id].Free() == r.outs[id].Free() - Weight(item, id))
  }

  lemma TakesCommand(v: Variant, r: Received, c: Command, rest: seq<byte>)
    requires r.Valid() && r.target.None? && r.tin.Contents() == CommandFrame(c.cmd, c.arg) + rest
    ensures Took(r, Receive(v, r), Order(c), 5)
  {
    DropDropsPrefix(r.tin, 3);
    DropDropsPrefix(r.tin.Drop(3), 2);
    var x := r.tin.Contents();
    assert x[3..][2..] == x[5..];
  }

  lemma OpensFrame(v: Variant, r: Received, id: byte, p: seq<byte>, rest: seq<byte>)
    requires r.Valid() && r.target.None? && id != 0 && id in r.outs
    requires r.tin.Contents() == Frame(id, p) + rest && r.tin.length > 3
    ensures Receive(v, r) == Deliver(v, Opened(r, id), id)
    ensures StandsAt(Opened(r, id).tin.Contents(), 0, p)
    ensures Opened(r, id).tin.Contents() == r.tin.Contents()[2..]
  {
    DropDropsPrefix(r.tin, 2);
    var x, f := r.tin.Contents(), Stuff(p, |p|);
    assert x[0] == END_BYTE && x[1] == id;
    assert x[2..] == f + [END_BYTE] + rest;
    assert (f + [END_BYTE] + rest)[0..|f|] == f;
  }

  lemma DeliversFrame(v: Variant, r: Received, id: byte, p: seq<byte>)
    requires r.Valid() && id in r.outs && |p| < r.outs[id].Free() && StandsAt(r.tin.Contents(), 0, p)
    ensures
      var r' := Deliver(v, r, id);
      var n := |Stuff(p, |p|)| + 1;
      && n <= r.tin.length && r'.target.None? && r'.got == r.got + Bytes(id, p)
      && r'.tin.Contents() == r.tin.Contents()[n..] && r'.outs.Keys == r.outs.Keys
      && (forall i :: i in r.outs ==> r'.outs[i].Free() == r.outs[i].Free() - if i == id then |p| else 0)
  {
    hide StandsAt, Decode, Stuff, Bytes, Ring.Contents, Ring.Drop;
    var x := r.tin.Contents();
    ContentsLength(r.tin);
    StandsWithin(x, p);
    DecodeStuffed(v, x, 0, p, 0, |x|, r.outs[id].Free());
    assert p[..0] == [];
    DropDropsPrefix(r.tin, |Stuff(p, |p|)| + 1);
  }

  lemma StandsWithin(x: seq<byte>, p: seq<byte>)
    requires StandsAt(x, 0, p)
    ensures |Stuff(p, |p|)| < |x| && |Stuff(p, 0)| == 0
  {
  }

  /** A frame is the two bytes of its head, the stuffed payload and the end byte. */
  lemma FrameParts(x: seq<byte>, got: seq<Atom>, id: byte, p: seq<byte>)
    requires |Stuff(p, |p|)| + 3 <= |x|
    ensures var n := |Stuff(p, |p|)| + 1; |Frame(id, p)| == n + 2 && x[2..][n..] == x[|Frame(id, p)|..]
    ensures got + [Atom.Open(id)] + Bytes(id, p) == got + Atoms(Data(id, p))
  {
    hide Stuff, Bytes;
  }

  lemma TakesData(v: Variant, r: Received, id: byte, p: seq<byte>, rest: seq<byte>)
    requires r.Valid() && r.target.None? && Fits(Data(id, p), r)
    requires r.tin.Contents() == Frame(id, p) + rest && r.tin.length > 3
    ensures |Frame(id, p)| <= r.tin.length && Took(r, Receive(v, r), Data(id, p), |Frame(id, p)|)
  {
    hide Receive, Deliver, Stuff, Frame, Bytes, Atoms, StandsAt, Ring.Contents, Ring.Free, Ring.Drop;
    OpensFrame(v, r, id, p, rest);
    var r1 := Opened(r, id);
    DeliversFrame(v, r1, id, p);
    ContentsLength(r.tin);
    ContentsLength(r1.tin);
    FrameParts(r.tin.Contents(), r.got, id, p);
  }

  /** One call reads the frame in front, once more than three bytes are there. */
  lemma TakesItem(v: Variant, r: Received, item: Item, rest: seq<byte>)
    requires r.Valid() && r.target.None? && Fits(item, r)
    requires r.tin.Contents() == Encoding(item) + rest && r.tin.length > 3
    ensures |Encoding(item)| <= r.tin.length && Took(r, Receive(v, r), item, |Encoding(item)|)
    ensures Receive(v, r).tin.Contents() == rest
  {
    hide Receive;
    match item {
      case Data(id, p) => TakesData(v, r, id, p, rest);
      case Order(c) => TakesCommand(v, r, c, rest);
    }
    assert (Encoding(item) + rest)[|Encoding(item)|..] == rest;
  }

  lemma StandsInFront(p: seq<byte>, rest: seq<byte>)
    ensures StandsAt(Stuff(p, |p|) + [END_BYTE] + rest, 0, p)
  {
    var f := Stuff(p, |p|);
    assert (f + [END_BYTE] + rest)[0..|f|] == f;
  }

  lemma Behind(f: seq<byte>, rest: seq<byte>)
    ensures (f + [END_BYTE] + rest)[|f| + 1..] == rest
  {
  }

  /** A call in the middle of a message takes the rest of it, and goes on to the frame behind it at once,
      if more than three bytes are there. */
  lemma GoesOnBehindMessage(v: Variant, r: Received, t: byte, p: seq<byte>, item: Item, rest: seq<byte>)
    requires r.Valid() && r.target == Some(t) && r.fault.NoFault?
    requires r.tin.Contents() == Stuff(p, |p|) + [END_BYTE] + (Encoding(item) + rest)
    requires |p| < r.outs[t].Free() && |Encoding(item) + rest| > 3
    requires item.Data? ==>
      && item.id != 0 && item.id in r.outs
      && |item.payload| + (if item.id == t then |p| else 0) < r.outs[item.id].Free()
    ensures
      var e := Receive(v, r);
      && e.target.None? && e.got == r.got + Bytes(t, p) + Atoms(item) && e.tin.Contents() == rest
  {
    hide Stuff, Encoding, Atoms, Bytes, Ring.Contents, Ring.Free, Deliver, TakeHead, StandsAt, Took;
    var more := Encoding(item) + rest;
    StandsInFront(p, more);
    DeliversFrame(v, r, t, p);
    Behind(Stuff(p, |p|), more);
    var r1 := Deliver(v, r, t);
    ContentsLength(r.tin);
    ContentsLength(r1.tin);
    assert Receive(v, r1) == TakeHead(v, r1);
    NotPastData(v, r, t, p);
    TakesItem(v, r1, item, rest);
    TookGot(r1, Receive(v, r1), item, |Encoding(item)|);
  }

  /** The same call ends the process if and only if a wrong head is behind the message. */
  lemma RejectsBehindMessageIff(v: Variant, r: Received, t: byte, p: seq<byte>, more: seq<byte>)
    requires r.Valid() && r.target == Some(t) && r.fault.NoFault?
    requires r.tin.Contents() == Stuff(p, |p|) + [END_BYTE] + more && |p| < r.outs[t].Free()
    ensures Receive(v, r).fault.Violation? <==> WrongHead(more, r.outs.Keys)
  {
    hide Stuff, Bytes, Ring.Contents, Ring.Free, Deliver, TakeHead, StandsAt, WrongHead;
    StandsInFront(p, more);
    DeliversFrame(v, r, t, p);
    Behind(Stuff(p, |p|), more);
    var r1 := Deliver(v, r, t);
    ContentsLength(r.tin);
    NotPastData(v, r, t, p);
    NoViolation(v, r, t);
    HeadDecides(v, r1);
  }

  lemma NoViolation(v: Variant, r: Received, t: byte)
    requires r.Valid() && t in r.outs && !r.fault.Violation?
    ensures !Deliver(v, r, t).fault.Violation?
  {
  }

  lemma HeadDecides(v: Variant, r: Received)
    requires r.Valid() && r.target.None? && !r.fault.Violation?
    ensures TakeHead(v, r).fault.Violation? <==> WrongHead(r.tin.Contents(), r.outs.Keys)
  {
  }

  lemma NotPastData(v: Variant, r: Received, t: byte, p: seq<byte>)
    requires r.Valid() && t in r.outs && Deliver(v, r, t).target.None?
    ensures !Deliver(v, r, t).fault.ReadPastData? || r.fault.ReadPastData?
  {
    hide Stuff;
  }

  lemma TookGot(r: Received, r': Received, item: Item, n: nat)
    requires r.Valid() && r'.Valid() && n <= r.tin.length && Took(r, r', item, n)
    ensures r'.target.None? && r'.got == r.got + Atoms(item)
  {
  }

  // ---------------------------------------------------------------- all calls

  /** `n` calls one after another. */
  function Receives(v: Variant, r: Received, n: nat): (r': Received)
    requires r.Valid()
    ensures r'.Valid()
    decreases n
  {
    if n == 0 then r else Receives(v, Receive(v, r), n - 1)
  }

  lemma {:induction false} ReceivesMore(v: Variant, r: Received, n: nat, m: nat)
    requires r.Valid()
    ensures Receives(v, r, n + m) == Receives(v, Receives(v, r, n), m)
    decreases n
  {
    hide Receive;
    if n > 0 {
      ReceivesMore(v, Receive(v, r), n - 1, m);
    }
  }

  lemma {:induction false} ReceivesNothing(v: Variant, r: Received, m: nat)
    requires r.Valid() && Receive(v, r) == r
    ensures Receives(v, r, m) == r
  {
    hide Receive;
    if m > 0 {
      ReceivesNothing(v, r, m - 1);
    }
  }

  predicate IsEmptyFrame(item: Item) {
    item.Data? && item.payload == []
  }

  /** The list ends in a frame that the receiver does not look at. */
  predicate EndsUnread(items: seq<Item>) {
    items != [] && IsEmptyFrame(items[|items| - 1])
  }

  lemma FrameLengths(item: Item)
    ensures |Encoding(item)| >= 3 && (|Encoding(item)| == 3 <==> IsEmptyFrame(item))
  {
    if item.Data? {
      StuffLength(item.payload, |item.payload|);
    }
  }

  /** What is left of the items from the `n`-th on is too short for a call exactly when it is one
      empty frame. */
  lemma TooShortIff(items: seq<Item>, n: nat)
    requires n < |items|
    ensures |EncodingFrom(items, n)| <= 3 <==> n == |items| - 1 && IsEmptyFrame(items[n])
  {
    hide Encoding;
    FrameLengths(items[n]);
    if n + 1 < |items| {
      FrameLengths(items[n + 1]);
    }
  }

  /** The state between two frames: the items from the `n`-th on are in the tunnel's in_buf, and
      every out_buf has more room than they bring. */
  predicate Ready(r: Received, items: seq<Item>, n: nat)
    requires n <= |items|
  {
    && r.Valid() && r.target.None? && r.tin.Contents() == EncodingFrom(items, n)
    && (forall k :: n <= k < |items| && items[k].Data? ==> items[k].id != 0 && items[k].id in r.outs)
    && (forall id :: id in r.outs ==> Volume(items, n, id) < r.outs[id].Free())
  }

  lemma OneStep(v: Variant, r: Received, items: seq<Item>, n: nat)
    requires n < |items| && Ready(r, items, n) && r.tin.length > 3
    ensures Ready(Receive(v, r), items, n + 1) && Receive(v, r).got == r.got + Atoms(items[n])
  {
    hide Receive, Encoding, Atoms;
    var item := items[n];
    if item.Data? {
      assert Volume(items, n, item.id) < r.outs[item.id].Free();
    }
    TakesItem(v, r, item, EncodingFrom(items, n + 1));
  }

  lemma LastUnread(v: Variant, r: Received, items: seq<Item>, n: nat)
    requires n < |items| && Ready(r, items, n) && r.tin.length <= 3
    ensures Receives(v, r, |items| - n) == r && Receive(v, r) == r && r.tin.length == 3
    ensures EndsUnread(items) && r.got + Atoms(items[|items| - 1]) == r.got + AtomsFrom(items, n)
  {
    hide Receive, Encoding, Atoms;
    TooShortIff(items, n);
    FrameLengths(items[n]);
    ReadyFacts(v, r, items, n);
    ReceivesNothing(v, r, |items| - n);
    assert AtomsFrom(items, n) == Atoms(items[n]) + [];
  }

  lemma EndedUnread(items: seq<Item>, n: nat)
    requires n < |items| && |EncodingFrom(items, n)| > 3
    ensures n + 1 == |items| ==> !EndsUnread(items)
  {
    TooShortIff(items, n);
  }

  /** As many calls as there are items read them all, or all but the empty frame at the end. */
  lemma {:induction false} ReadsFrom(v: Variant, r: Received, items: seq<Item>, n: nat, left: nat)
    requires n <= |items| && Ready(r, items, n) && left == |items| - n
    ensures
      var e := Receives(v, r, left);
      && Receive(v, e) == e
      && if n < |items| && EndsUnread(items)
         then e.tin.length == 3 && e.got + Atoms(items[|items| - 1]) == r.got + AtomsFrom(items, n)
         else e.tin.length == 0 && e.got == r.got + AtomsFrom(items, n)
    decreases left
  {
    hide Receive, Atoms, Ready, EndsUnread, EncodingFrom;
    ReadyFacts(v, r, items, n);
    if n < |items| {
      if r.tin.length > 3 {
        OneStep(v, r, items, n);
        EndedUnread(items, n);
        ReadsFrom(v, Receive(v, r), items, n + 1, left - 1);
        JoinsInParts(r.got, Atoms(items[n]), AtomsFrom(items, n + 1), []);
      } else {
        LastUnread(v, r, items, n);
      }
    }
  }

  lemma ReadyFacts(v: Variant, r: Received, items: seq<Item>, n: nat)
    requires n <= |items| && Ready(r, items, n)
    ensures r.Valid() && r.target.None? && r.tin.length == |EncodingFrom(items, n)|
    ensures r.tin.length <= 3 ==> Receive(v, r) == r
    ensures n == |items| ==> r.got + AtomsFrom(items, n) == r.got && r.tin.length == 0
  {
  }

  /** With all the bytes of a list of frames and commands in the tunnel's in_buf, for known
      connections that have more room than they bring, as many calls as there are items, and any
      number of calls more, hand out that list and empty the buffer if and only if the list does
      not end in an empty frame. */
  lemma ReceiverReadsBackIff(v: Variant, r: Received, items: seq<Item>, more: nat)
    requires Ready(r, items, 0) && r.got == []
    ensures
      var e := Receives(v, r, |items| + more);
      e.got == AtomsAll(items, |items|) && e.tin.length == 0 <==> !EndsUnread(items)
  {
    hide Receive, Receives, Atoms, Ready, EncodingFrom, AtomsFrom, EndsUnread;
    ReadyFacts(v, r, items, 0);
    AllIsFromStart(items);
    ReadsFrom(v, r, items, 0, |items|);
    var e := Receives(v, r, |items|);
    ReceivesMore(v, r, |items|, more);
    ReceivesNothing(v, e, more);
    assert [] + AtomsFrom(items, 0) == AtomsFrom(items, 0);
    NothingEndsRead(items);
  }

  lemma NothingEndsRead(items: seq<Item>)
    ensures items == [] ==> !EndsUnread(items)
  {
  }

  lemma EmptyFrameIsEncoded(v: Variant, id: byte)
    ensures
      var e := EncodeStep(v, Ring(0, 1, [END_BYTE]), Ring(0, 0, [0, 0, 0, 0]), id);
      e.frame == Some([]) && e.dst.Contents() == [END_BYTE, id, END_BYTE]
  {
    hide Ring.Stored;
    var src, dst := Ring(0, 1, [END_BYTE]), Ring(0, 0, [0, 0, 0, 0]);
    assert src.Contents() == [END_BYTE];
    EncodeMovesBytes(v, src, dst, id);
    assert dst.Contents() == [];
    assert Frame(id, []) == [END_BYTE, id, END_BYTE];
  }

  lemma EmptyFrameIsRead(id: byte)
    requires id != 0
    ensures Read([END_BYTE, id, END_BYTE], Start()) == Reader(3, None, [Atom.Open(id)])
  {
    hide Read;
    assert [] + [END_BYTE, id] == [END_BYTE, id] && [] + [Atom.Open(id)] == [Atom.Open(id)];
    assert [END_BYTE, id] + [END_BYTE] == [END_BYTE, id, END_BYTE];
    ReadHead([], id, []);
    ReadGoesOn([END_BYTE, id], [END_BYTE], Start());
    ReadEnd([END_BYTE, id], id, [Atom.Open(id)]);
  }

  /** `encode` puts an empty frame into a tunnel with four free bytes; shipped or corrected, the
      receiver leaves it where it is, although the reference reader reads it. */
  lemma EmptyFrameStaysExample(v: Variant, id: byte, outs: map<byte, Ring>)
    requires id != 0 && id in outs && forall i :: i in outs ==> outs[i].Valid()
    ensures
      var e := EncodeStep(v, Ring(0, 1, [END_BYTE]), Ring(0, 0, [0, 0, 0, 0]), id);
      var r := Before(Ring(0, 3, [END_BYTE, id, END_BYTE, 0]), None, outs);
      && e.frame == Some([]) && r.Valid() && r.tin.Contents() == e.dst.Contents() && Receive(v, r) == r
      && Read(r.tin.Contents(), Start()) == Reader(3, None, [Atom.Open(id)])
  {
    hide EncodeStep, Read;
    EmptyFrameIsEncoded(v, id);
    EmptyFrameIsRead(id);
    var t := Ring(0, 3, [END_BYTE, id, END_BYTE, 0]);
    assert t.Contents() == [END_BYTE, id, END_BYTE];
  }
}
