/** The code of the proxy: its ring buffer, `transfer` on two poll entries, and the slots in two
    arrays that are served and compacted in place. */
module Proxies {
  import opened Basics
  import opened Ring
  import opened PollFds
  import opened Relay

  class ProxyBuffer {
    var offset: nat
    var length: nat
    const buffer: array<byte>

    ghost function Model(): Ring
      reads this, buffer
    {
      Ring(offset, length, buffer[..])
    }

    ghost predicate Valid()
      reads this, buffer
    {
      Model().Valid()
    }

    /** `rb_init`. */
    constructor (capacity: nat)
      ensures Valid() && fresh(buffer) && Model() == Ring(0, 0, seq(capacity, i => 0))
    {
      offset, length := 0, 0;
      buffer := new byte[capacity](_ => 0);
    }

    method MakeWriteIov() returns (iov: seq<Seg>)
      requires Valid()
      ensures iov == Model().WritingSegs(Shipped)
      ensures Slots(iov) == FreeSlots(Model()) <==> !Model().Clobbers()
    {
      WritingSegsAreFreeSlotsIff(Model());
      if length == buffer.Length {
        return [];
      }
      iov := [];
      var partStart := offset + length;
      if partStart < buffer.Length {
        iov := iov + [Seg(partStart, buffer.Length - partStart)];
      }
      if offset > 0 {
        iov := iov + [Seg(0, offset)];
      }
    }

    method MakeReadIov() returns (iov: seq<Seg>)
      requires Valid()
      ensures iov == Model().ReadingSegs() && SegTotal(iov) == length
      ensures forall k :: 0 <= k < length ==> SegSlot(iov, k) < buffer.Length
      ensures Gather(buffer[..], iov) == Model().Contents()
    {
      ReadingSegsGatherContents(Model());
      if length == 0 {
        return [];
      }
      var end := offset + length;
      if end <= buffer.Length {
        return [Seg(offset, length)];
      }
      return [Seg(offset, buffer.Length - offset), Seg(0, end - buffer.Length)];
    }

    /** `write_rb` when writev took `n` of the bytes it was given. */
    method WriteRb(n: nat) returns (sent: seq<byte>)
      requires Valid() && 0 < n <= length
      modifies this
      ensures Model() == old(Model()).Drop(n)
      ensures sent == old(Model().Contents())[..n]
    {
      var iov := MakeReadIov();
      sent := Gather(buffer[..], iov)[..n];
      if n == length {
        length, offset := 0, 0;
      } else {
        length := length - n;
        ModIsOneTurn(offset + n, buffer.Length);
        offset := (offset + n) % buffer.Length;
      }
    }

    /** `read_rb` when readv put `got` into the segments. The length is not limited: the buffer may
        be left with more than its capacity. */
    method ReadRb(got: seq<byte>)
      requires Valid() && |got| <= SegTotal(Model().WritingSegs(Shipped))
      modifies this, buffer
      ensures Model() == Extended(Shipped, old(Model()), got)
      ensures !old(Model()).Clobbers() ==> Valid()
    {
      ghost var r := Model();
      WritingSegsSlots(Shipped, r);
      var iov := MakeWriteIov();
      var done := 0;
      assert buffer[..] == r.Stored(Shipped, []);
      while done < |got|
        modifies buffer
        invariant done <= |got|
        invariant buffer[..] == r.Stored(Shipped, got[..done])
      {
        StoredOneMore(Shipped, r, got[..done], got[done]);
        assert got[..done] + [got[done]] == got[..done + 1];
        buffer[SegSlot(iov, done)] := got[done];
        done := done + 1;
      }
      assert got[..done] == got;
      length := length + |got|;
    }
  }

  /** `get_rw_error_cause`: whether a read of these bytes, or a failure, ends the direction. */
  method ReadFrom(buf: ProxyBuffer, reply: ReadReply, ghost w: Way) returns (ended: bool)
    requires buf.Valid() && buf.Model() == w.buf
    modifies buf, buf.buffer
    ensures ended == EndsRead(Shipped, w.buf, reply)
    ensures ended ==> buf.Model() == w.buf
    ensures !ended ==> buf.Model() == Fed(Shipped, w, reply).buf
    ensures ended ==> buf.Valid()
  {
    match reply {
      case ReadFailed => return true;
      case NothingYet => return false;
      case Got(bytes) =>
        WritingSegsSlots(Shipped, w.buf);
        var iov := buf.MakeWriteIov();
        var got := bytes[..Min(|bytes|, SegTotal(iov))];
        if |got| == 0 {
          return true;
        }
        buf.ReadRb(got);
        return false;
    }
  }

  /** The write of `transfer`. */
  method WriteFrom(buf: ProxyBuffer, reply: WriteReply, ghost w: Way) returns (ended: bool)
    requires buf.Valid() && buf.Model() == w.buf && buf.length > 0
    modifies buf
    ensures buf.Valid() && ended == EndsWrite(reply)
    ensures buf.Model() == if ended then w.buf else Drained(w, reply).buf
  {
    match reply {
      case WriteFailed => return true;
      case NoRoomYet => return false;
      case Took(n) =>
        if n == 0 {
          return true;
        }
        var m := Min(n, buf.length);
        assert w.buf.Drop(m) == w.buf.Drop(n);
        var _ := buf.WriteRb(m);
        return false;
    }
  }

  /** Both entries of a direction that ends. */
  method CloseWay(fds: array<PollFd>, a: nat, b: nat)
    requires a < fds.Length && b < fds.Length && a != b
    modifies fds
    ensures fds[..] == old(fds[..])[a := old(fds[a]).Clear(true, false)][b := old(fds[b]).Clear(false, true)]
  {
    fds[a] := fds[a].Clear(true, false);
    fds[b] := fds[b].Clear(false, true);
  }

  /** The entries `a` and `b` of an array became those of `t`. */
  ghost predicate Became(was: seq<PollFd>, now: seq<PollFd>, a: nat, b: nat, t: Transferred)
    requires a < |was| && b < |was|
  {
    now == was[a := t.inp][b := t.out]
  }

  /** `transfer` from the write on. */
  method TransferRest(
      fds: array<PollFd>, a: nat, b: nat, buf: ProxyBuffer, writable: bool, wr: WriteReply,
      ghost w: Way, ghost calls: seq<int>)
    returns (res: int)
    requires a < fds.Length && b < fds.Length && a != b
    requires buf.Valid() && buf.Model() == w.buf && w.active
    modifies fds, buf
    ensures
      var t := TransferOut(old(fds[a]), old(fds[b]), w, writable, wr, calls);
      && Became(old(fds[..]), fds[..], a, b, t) && buf.Valid() && buf.Model() == t.way.buf
      && res == if t.way.active then 0 else -1
  {
    hide EndsWrite;
    ghost var w1 := w;
    if writable && buf.length > 0 {
      var ended := WriteFrom(buf, wr, w);
      if ended {
        CloseWay(fds, a, b);
        return -1;
      }
      w1 := Drained(w, wr);
      DrainedActive(w, wr);
    }
    if buf.length == 0 {
      fds[b] := fds[b].Clear(false, true);
    } else {
      fds[b] := fds[b].Set(false, true);
    }
    return 0;
  }

  /** `transfer`. It says so when its read left more than the capacity, and the model stops there; it
      is then at the state behind that read. */
  method TransferBetween(
      fds: array<PollFd>, a: nat, b: nat, buf: ProxyBuffer, readable: bool, writable: bool,
      rd: ReadReply, wr: WriteReply, ghost w: Way)
    returns (res: int, burst: bool)
    requires a < fds.Length && b < fds.Length && a != b
    requires buf.Valid() && buf.Model() == w.buf && w.active
    modifies fds, buf, buf.buffer
    ensures
      var t := Transfer(Shipped, old(fds[a]), old(fds[b]), w, readable, writable, rd, wr);
      && Became(old(fds[..]), fds[..], a, b, t) && buf.Model() == t.way.buf
      && burst == !t.way.buf.Valid() && res == if t.way.active then 0 else -1
  {
    hide EndsRead, TransferOut, Fed;
    burst := false;
    if readable && buf.length < buf.buffer.Length {
      FedActive(Shipped, w, rd);
      FedBursts(w, rd);
      var ended := ReadFrom(buf, rd, w);
      if ended {
        CloseWay(fds, a, b);
        return -1, false;
      }
      if buf.length > buf.buffer.Length {
        return 0, true;
      }
      ghost var calls := [fds[a].fd];
      res := TransferRest(fds, a, b, buf, writable, wr, Fed(Shipped, w, rd), calls);
    } else {
      res := TransferRest(fds, a, b, buf, writable, wr, w, []);
    }
  }

  lemma FedBursts(w: Way, reply: ReadReply)
    requires w.buf.Valid()
    ensures var f := Fed(Shipped, w, reply).buf;
            |f.data| == |w.buf.data| && (f.Valid() <==> f.length <= |f.data|)
  {
    hide Ring.Stored;
  }

  class ProxyClient {
    const srcFd: int
    const dstFd: int
    var srcDstActive: bool
    var dstSrcActive: bool
    const srcDstBuf: ProxyBuffer
    const dstSrcBuf: ProxyBuffer

    /** `make_client`. */
    constructor (srcFd: int, dstFd: int)
      ensures fresh(srcDstBuf) && fresh(dstSrcBuf) && fresh(srcDstBuf.buffer) && fresh(dstSrcBuf.buffer)
      ensures Apart(this) && this.srcFd == srcFd && this.dstFd == dstFd && srcDstActive && dstSrcActive
      ensures srcDstBuf.Model() == dstSrcBuf.Model() == Ring(0, 0, seq(BUFFER_SIZE, i => 0))
    {
      this.srcFd, this.dstFd := srcFd, dstFd;
      srcDstActive, dstSrcActive := true, true;
      var back := new ProxyBuffer(BUFFER_SIZE);
      var fwd := new ProxyBuffer(BUFFER_SIZE);
      srcDstBuf, dstSrcBuf := fwd, back;
    }
  }

  predicate Apart(c: ProxyClient) {
    c.srcDstBuf != c.dstSrcBuf && c.srcDstBuf.buffer != c.dstSrcBuf.buffer
  }

  predicate Disjoint(c: ProxyClient, d: ProxyClient) {
    && c != d
    && {c.srcDstBuf, c.dstSrcBuf} !! {d.srcDstBuf, d.dstSrcBuf}
    && {c.srcDstBuf.buffer, c.dstSrcBuf.buffer} !! {d.srcDstBuf.buffer, d.dstSrcBuf.buffer}
  }

  /** The clients are different objects and share no memory. */
  predicate Separate(cs: seq<ProxyClient>) {
    && (forall i :: 0 <= i < |cs| ==> Apart(cs[i]))
    && (forall i, j :: 0 <= i < j < |cs| ==> Disjoint(cs[i], cs[j]))
  }

  lemma OthersApart(cs: seq<ProxyClient>, i: nat)
    requires Separate(cs) && i < |cs|
    ensures Apart(cs[i])
    ensures forall j :: 0 <= j < |cs| && j != i ==>
      && cs[j] != cs[i]
      && cs[j].srcDstBuf != cs[i].srcDstBuf && cs[j].srcDstBuf != cs[i].dstSrcBuf
      && cs[j].dstSrcBuf != cs[i].srcDstBuf && cs[j].dstSrcBuf != cs[i].dstSrcBuf
      && cs[j].srcDstBuf.buffer != cs[i].srcDstBuf.buffer && cs[j].srcDstBuf.buffer != cs[i].dstSrcBuf.buffer
      && cs[j].dstSrcBuf.buffer != cs[i].srcDstBuf.buffer && cs[j].dstSrcBuf.buffer != cs[i].dstSrcBuf.buffer
  {
    forall j | 0 <= j < |cs| && j != i
      ensures Disjoint(cs[j], cs[i]) || Disjoint(cs[i], cs[j])
    {
    }
  }

  /** The object shows the value, but for the poll entries and the records. */
  ghost predicate IsClient(c: ProxyClient, v: Client)
    reads c, c.srcDstBuf, c.srcDstBuf.buffer, c.dstSrcBuf, c.dstSrcBuf.buffer
  {
    && c.srcFd == v.srcFd && c.dstFd == v.dstFd
    && c.srcDstActive == v.fwd.active && c.dstSrcActive == v.back.active
    && c.srcDstBuf.Model() == v.fwd.buf && c.dstSrcBuf.Model() == v.back.buf
  }

  /** The poll entries of the slots. */
  predicate Entries(fds: seq<PollFd>, t: seq<Client>) {
    1 + 2 * |t| <= |fds|
    && forall i :: 0 <= i < |t| ==> fds[1 + 2 * i] == t[i].src && fds[2 + 2 * i] == t[i].dst
  }

  lemma EntriesAt(fds: seq<PollFd>, t: seq<Client>, i: nat)
    requires Entries(fds, t) && i < |t|
    ensures 2 + 2 * i < |fds| && fds[1 + 2 * i] == t[i].src && fds[2 + 2 * i] == t[i].dst
  {
  }

  lemma EntriesUpdate(fds: seq<PollFd>, t: seq<Client>, i: nat, c: Client)
    requires Entries(fds, t) && i < |t|
    ensures Entries(fds[1 + 2 * i := c.src][2 + 2 * i := c.dst], t[i := c])
    ensures Entries(fds[2 + 2 * i := c.dst][1 + 2 * i := c.src], t[i := c])
  {
  }

  class Proxy {
    const clients: array<ProxyClient?>
    const fds: array<PollFd>
    var count: nat

    ghost predicate Valid()
      reads this
    {
      clients.Length == MAX_CLIENTS && fds.Length == 1 + 2 * MAX_CLIENTS && count <= MAX_CLIENTS
    }

    /** The slots hold the clients `cs` with the values `t`; the first `n` have had their turn, and
        those of them that are done are cleared. */
    ghost predicate Shows(cs: seq<ProxyClient>, t: seq<Client>, n: nat)
      reads this, clients, fds
      reads set i | 0 <= i < |cs| :: cs[i]
      reads set i | 0 <= i < |cs| :: cs[i].srcDstBuf
      reads set i | 0 <= i < |cs| :: cs[i].srcDstBuf.buffer
      reads set i | 0 <= i < |cs| :: cs[i].dstSrcBuf
      reads set i | 0 <= i < |cs| :: cs[i].dstSrcBuf.buffer
    {
      && Valid() && count == |cs| == |t| && n <= count && Separate(cs)
      && (forall i :: 0 <= i < count ==>
            clients[i] == (if i < n && IsDone(t[i]) then null else cs[i]) && IsClient(cs[i], t[i]))
      && Entries(fds[..], t)
    }

    constructor ()
      ensures Valid() && count == 0 && fresh(clients) && fresh(fds)
    {
      clients := new ProxyClient?[MAX_CLIENTS](_ => null);
      fds := new PollFd[1 + 2 * MAX_CLIENTS](_ => PollFd(0, false, false));
      count := 0;
    }

    /** `add_client`; -2 when no slot is left. */
    method AddClient(srcFd: int, dstFd: int, ghost cs: seq<ProxyClient>, ghost t: seq<Client>)
      returns (slot: int, ghost c: ProxyClient?)
      requires Shows(cs, t, 0)
      modifies this`count, clients, fds
      ensures if |t| == MAX_CLIENTS then slot == -2 && Shows(cs, t, 0)
              else slot == |t| && c != null && fresh(c) && fresh(c.srcDstBuf) && fresh(c.dstSrcBuf)
                   && fresh(c.srcDstBuf.buffer) && fresh(c.dstSrcBuf.buffer)
                   && Shows(cs + [c], t + [NewClient(srcFd, dstFd)], 0)
    {
      c := null;
      if count == MAX_CLIENTS {
        return -2, null;
      }
      var made := new ProxyClient(srcFd, dstFd);
      slot := count;
      AddSlot(made, cs, t);
      c := made;
    }

    /** `add_slot`. */
    method AddSlot(c: ProxyClient, ghost cs: seq<ProxyClient>, ghost t: seq<Client>)
      requires Shows(cs, t, 0) && count < MAX_CLIENTS && Separate(cs + [c])
      requires IsClient(c, NewClient(c.srcFd, c.dstFd))
      modifies this`count, clients, fds
      ensures Shows(cs + [c], t + [NewClient(c.srcFd, c.dstFd)], 0)
    {
      var slot := count;
      count := count + 1;
      clients[slot] := c;
      fds[1 + 2 * slot] := PollFd(c.srcFd, true, false);
      fds[2 + 2 * slot] := PollFd(c.dstFd, true, false);
    }

    /** One direction of slot `i` for which `transfer` is called with the entries `a` and `b`. */
    method ServeForwardAt(i: nat, a: Answers, ghost cs: seq<ProxyClient>, ghost t: seq<Client>)
      returns (burst: bool)
      requires Shows(cs, t, i) && i < count && t[i].fwd.buf.Valid()
      modifies fds, cs[i], cs[i].srcDstBuf, cs[i].srcDstBuf.buffer
      ensures var c := ServeForward(Shipped, t[i], a).client;
              Shows(cs, t[i := c], i) && burst == !c.fwd.buf.Valid()
    {
      hide Transfer, Entries, IsDone, Separate, Apart, Disjoint, Ring.Valid, ProxyBuffer.Model;
      OthersApart(cs, i);
      EntriesAt(fds[..], t, i);
      burst := false;
      var client := clients[i];
      assert client == cs[i] && IsClient(cs[i], t[i]);
      if client.srcDstActive {
        var res;
        res, burst := TransferBetween(fds, 1 + 2 * i, 2 + 2 * i, client.srcDstBuf, a.srcIn, a.dstOut,
                                   a.srcRead, a.dstWrite, t[i].fwd);
        if res == -1 {
          client.srcDstActive := false;
        }
        EntriesUpdate(old(fds[..]), t, i, ServeForward(Shipped, t[i], a).client);
      } else {
        assert t[i := t[i]] == t;
      }
    }

    method ServeBackwardAt(i: nat, a: Answers, ghost cs: seq<ProxyClient>, ghost t: seq<Client>)
      returns (burst: bool)
      requires Shows(cs, t, i) && i < count && t[i].back.buf.Valid()
      modifies fds, cs[i], cs[i].dstSrcBuf, cs[i].dstSrcBuf.buffer
      ensures var c := ServeBackward(Shipped, t[i], a).client;
              Shows(cs, t[i := c], i) && burst == !c.back.buf.Valid()
    {
      hide Transfer, Entries, IsDone, Separate, Apart, Disjoint, Ring.Valid, ProxyBuffer.Model;
      OthersApart(cs, i);
      EntriesAt(fds[..], t, i);
      burst := false;
      var client := clients[i];
      assert client == cs[i] && IsClient(cs[i], t[i]);
      if client.dstSrcActive {
        var res;
        res, burst := TransferBetween(fds, 2 + 2 * i, 1 + 2 * i, client.dstSrcBuf, a.dstIn, a.srcOut,
                                   a.dstRead, a.srcWrite, t[i].back);
        if res == -1 {
          client.dstSrcActive := false;
        }
        EntriesUpdate(old(fds[..]), t, i, ServeBackward(Shipped, t[i], a).client);
      } else {
        assert t[i := t[i]] == t;
      }
    }

    /** `disconnect_client`; returns the descriptors it closed. */
    method Disconnect(i: nat) returns (closed: seq<int>)
      requires Valid() && i < count && clients[i] != null
      modifies clients
      ensures closed == [old(clients[i]).srcFd, old(clients[i]).dstFd]
      ensures clients[..] == old(clients[..])[i := null]
    {
      var client := clients[i];
      clients[i] := null;
      closed := [client.srcFd, client.dstFd];
    }

    /** A client whose directions are both inactive is disconnected. */
    method FinishSlot(i: nat, ghost cs: seq<ProxyClient>, ghost t: seq<Client>) returns (closed: seq<int>)
      requires Shows(cs, t, i) && i < count
      modifies clients
      ensures Shows(cs, t, i + 1) && closed == if IsDone(t[i]) then [t[i].srcFd, t[i].dstFd] else []
    {
      assert clients[i] == cs[i] && IsClient(cs[i], t[i]);
      closed := [];
      if !clients[i].srcDstActive && !clients[i].dstSrcActive {
        closed := Disconnect(i);
      }
    }

    /** The body of the loop over the clients; a buffer over its capacity ends it. */
    method ServeSlot(i: nat, a: Answers, ghost cs: seq<ProxyClient>, ghost t: seq<Client>)
      returns (closed: seq<int>, burst: bool)
      requires Shows(cs, t, i) && i < count && Whole(t[i])
      modifies clients, fds, cs[i], cs[i].srcDstBuf, cs[i].srcDstBuf.buffer
      modifies cs[i].dstSrcBuf, cs[i].dstSrcBuf.buffer
      ensures var c := Serve(Shipped, t[i], a).client;
              && burst == !Whole(c) && Shows(cs, t[i := c], if burst then i else i + 1)
              && closed == if IsDone(c) && !burst then [c.srcFd, c.dstFd] else []
    {
      hide Shows, ServeForward, ServeBackward, IsDone;
      ShowsCount(cs, t, i);
      closed := [];
      ForwardKeepsBack(t[i], a);
      burst := ServeForwardAt(i, a, cs, t);
      if burst {
        return;
      }
      ghost var t1 := t[i := ServeForward(Shipped, t[i], a).client];
      BackwardKeepsForward(t1[i], a);
      burst := ServeBackwardAt(i, a, cs, t1);
      ghost var t2 := t[i := Serve(Shipped, t[i], a).client];
      assert t1[i := ServeBackward(Shipped, t1[i], a).client] == t2;
      if !burst {
        closed := FinishSlot(i, cs, t2);
      }
    }

    lemma BackwardKeepsForward(c: Client, a: Answers)
      requires c.back.buf.Valid()
      ensures ServeBackward(Shipped, c, a).client.fwd == c.fwd
    {
    }

    lemma ShowsCount(cs: seq<ProxyClient>, t: seq<Client>, n: nat)
      requires Shows(cs, t, n)
      ensures Valid() && count == |cs| == |t|
    {
    }

    lemma ForwardKeepsBack(c: Client, a: Answers)
      requires c.fwd.buf.Valid()
      ensures ServeForward(Shipped, c, a).client.back == c.back
    {
    }

    /** The slots hold `cs` and `t` from place `from` to `to`, behind the turns. */
    ghost predicate Holds(cs: seq<ProxyClient>, t: seq<Client>, from: nat, to: nat)
      requires Valid() && from <= to <= |cs| == |t| && to <= MAX_CLIENTS
      reads this, clients, fds
    {
      forall k :: from <= k < to ==>
        && clients[k] == (if IsDone(t[k]) then null else cs[k])
        && fds[1 + 2 * k] == t[k].src && fds[2 + 2 * k] == t[k].dst
    }

    /** `copy_slot` moves slot `from` down to place `to`. */
    method CopySlot(from: nat, to: nat, ghost kc: seq<ProxyClient>, ghost kt: seq<Client>,
                    ghost cs: seq<ProxyClient>, ghost t: seq<Client>)
      requires Valid() && to == |kc| == |kt| <= from < count == |cs| == |t| && !IsDone(t[from])
      requires Holds(kc, kt, 0, to) && Holds(cs, t, from, count)
      modifies clients, fds
      ensures Holds(kc + [cs[from]], kt + [t[from]], 0, to + 1) && Holds(cs, t, from + 1, count)
    {
      if to == from {
        return;
      }
      clients[to] := clients[from];
      fds[1 + 2 * to] := fds[1 + 2 * from];
      fds[2 + 2 * to] := fds[2 + 2 * from];
    }

    /** The loop of `shrink_slots`. */
    method Compact(ghost cs: seq<ProxyClient>, ghost t: seq<Client>) returns (i: nat)
      requires Valid() && count == |cs| == |t| && Holds(cs, t, 0, count)
      modifies clients, fds
      ensures i == |Kept(t, |t|)| <= count
      ensures Holds(KeptClients(cs, t, |t|), Kept(t, |t|), 0, i)
    {
      hide Holds, IsDone;
      i := 0;
      var j := 0;
      NothingHeld();
      while j < count
        invariant 0 <= i <= j <= count && i == |Kept(t, j)|
        invariant Holds(KeptClients(cs, t, j), Kept(t, j), 0, i) && Holds(cs, t, j, count)
      {
        HeldAt(cs, t, j);
        if clients[j] != null {
          CopySlot(j, i, KeptClients(cs, t, j), Kept(t, j), cs, t);
          i := i + 1;
        } else {
          assert KeptClients(cs, t, j + 1) == KeptClients(cs, t, j) && Kept(t, j + 1) == Kept(t, j);
        }
        j := j + 1;
      }
    }

    lemma NothingHeld()
      requires Valid()
      ensures Holds([], [], 0, 0)
    {
    }

    lemma HeldAt(cs: seq<ProxyClient>, t: seq<Client>, j: nat)
      requires Valid() && j < count == |cs| == |t| && Holds(cs, t, j, count)
      ensures clients[j] == (if IsDone(t[j]) then null else cs[j]) && Holds(cs, t, j + 1, count)
    {
    }

    /** The loop over the clients that were there before accept; a buffer over its capacity ends it. */
    method ServeAll(answers: seq<Answers>, ghost cs: seq<ProxyClient>, ghost t: seq<Client>)
      returns (closed: seq<int>, burst: bool)
      requires Shows(cs, t, 0) && |answers| <= count
      requires forall i :: 0 <= i < |answers| ==> Whole(t[i])
      modifies clients, fds, set i | 0 <= i < |cs| :: cs[i]
      modifies set i | 0 <= i < |cs| :: cs[i].srcDstBuf
      modifies set i | 0 <= i < |cs| :: cs[i].srcDstBuf.buffer
      modifies set i | 0 <= i < |cs| :: cs[i].dstSrcBuf
      modifies set i | 0 <= i < |cs| :: cs[i].dstSrcBuf.buffer
      ensures burst <==> SomeBurst(t, answers)
      ensures !burst ==>
        Shows(cs, FirstTurns(t, answers), |answers|) && closed == ClosedFds(FirstTurns(t, answers), |answers|)
    {
      hide Shows, IsDone, Serve, Whole, AfterTurn, FirstTurns;
      ShowsCount(cs, t, 0);
      burst := false;
      closed := [];
      ghost var w := t;
      ghost var u := FirstTurns(t, answers);
      var i := 0;
      while i < |answers|
        invariant 0 <= i <= |answers| <= count == |t| == |w| == |cs|
        invariant Shows(cs, w, i) && closed == ClosedFds(u, i)
        invariant forall j :: 0 <= j < |t| ==> w[j] == if j < i then u[j] else t[j]
        invariant forall j :: 0 <= j < i ==> Whole(u[j])
      {
        var c;
        c, burst := ServeSlot(i, answers[i], cs, w);
        TurnAt(t, answers, i);
        if burst {
          return;
        }
        w := w[i := Serve(Shipped, w[i], answers[i]).client];
        ShowsCount(cs, w, i + 1);
        closed := closed + c;
        i := i + 1;
      }
      NoneBurst(t, answers);
      LaterTurns(t, answers);
      assert w == u;
    }

    /** `shrink_slots`. */
    method ShrinkSlots(ghost cs: seq<ProxyClient>, ghost t: seq<Client>)
      requires Shows(cs, t, |t|)
      modifies this`count, clients, fds
      ensures Shows(KeptClients(cs, t, |t|), Kept(t, |t|), 0)
    {
      var i := Compact(cs, t);
      count := i;
      KeptShow(cs, t, |t|);
    }

    lemma TurnAt(t: seq<Client>, answers: seq<Answers>, i: nat)
      requires i < |answers| <= |t| && Whole(t[i])
      ensures FirstTurns(t, answers)[i] == Serve(Shipped, t[i], answers[i]).client
      ensures !Whole(FirstTurns(t, answers)[i]) ==> SomeBurst(t, answers)
    {
      hide Serve;
    }

    lemma NoneBurst(t: seq<Client>, answers: seq<Answers>)
      requires |answers| <= |t| && forall i :: 0 <= i < |answers| ==> Whole(FirstTurns(t, answers)[i])
      ensures !SomeBurst(t, answers)
    {
      hide AfterTurn, Whole;
      var u := FirstTurns(t, answers);
      assert forall i :: 0 <= i < |answers| ==> u[i] == AfterTurn(Shipped, t[i], answers[i]);
    }

    lemma LaterTurns(t: seq<Client>, answers: seq<Answers>)
      requires |answers| <= |t|
      ensures forall i :: |answers| <= i < |t| ==> FirstTurns(t, answers)[i] == t[i]
    {
    }

    /** One turn of the main loop behind poll, from whole buffers. It says so when a read leaves more than the capacity,
        and the model stops there. */
    method Turn(answers: seq<Answers>, accepted: Option<(int, int)>, ghost cs: seq<ProxyClient>, ghost p: Relay.Proxy)
      returns (closed: seq<int>, burst: bool, ghost cs': seq<ProxyClient>)
      requires Shows(cs, p.clients, 0) && RoundOk(p, Round(answers, accepted))
      requires forall i :: 0 <= i < |p.clients| ==> Whole(p.clients[i])
      modifies this`count, clients, fds, set i | 0 <= i < |cs| :: cs[i]
      modifies set i | 0 <= i < |cs| :: cs[i].srcDstBuf
      modifies set i | 0 <= i < |cs| :: cs[i].srcDstBuf.buffer
      modifies set i | 0 <= i < |cs| :: cs[i].dstSrcBuf
      modifies set i | 0 <= i < |cs| :: cs[i].dstSrcBuf.buffer
      ensures burst <==> SomeBurst(p.clients, answers)
      ensures var p' := Next(Shipped, p, Round(answers, accepted));
              !burst ==> Shows(cs', p'.clients, 0) && p'.closed == p.closed + closed
    {
      hide Shows, AfterTurn, AnswersOk, Whole, IsDone, SomeBurst;
      ShowsCount(cs, p.clients, 0);
      ghost var t := p.clients;
      cs' := cs;
      if accepted.Some? {
        var slot; ghost var c;
        slot, c := AddClient(accepted.value.0, accepted.value.1, cs, t);
        cs', t := cs + [c], t + [NewClient(accepted.value.0, accepted.value.1)];
      }
      assert forall i :: 0 <= i < |cs'| && cs'[i] !in cs ==>
        fresh(cs'[i]) && fresh(cs'[i].srcDstBuf) && fresh(cs'[i].srcDstBuf.buffer)
        && fresh(cs'[i].dstSrcBuf) && fresh(cs'[i].dstSrcBuf.buffer);
      ShowsCount(cs', t, 0);
      closed, burst := ServeAll(answers, cs', t);
      SameBurst(p.clients, t, answers);
      if burst {
        return;
      }
      ghost var u := AfterTurns(Shipped, p.clients, answers, accepted);
      assert u == FirstTurns(t, answers);
      NewStays(p.clients, answers, accepted);
      NewShows(cs', u, |answers|);
      ShrinkSlots(cs', u);
      cs' := KeptClients(cs', u, |u|);
    }

    /** The clients without a turn are not done. */
    lemma NewShows(cs: seq<ProxyClient>, t: seq<Client>, n: nat)
      requires Shows(cs, t, n) && forall i :: n <= i < |t| ==> !IsDone(t[i])
      ensures Shows(cs, t, |t|)
    {
    }
  }

  /** The slots behind the turns of the first ones. */
  function FirstTurns(t: seq<Client>, answers: seq<Answers>): (u: seq<Client>)
    requires |answers| <= |t|
    ensures |u| == |t|
  {
    seq(|t|, i requires 0 <= i < |t| =>
      if i < |answers| then AfterTurn(Shipped, t[i], answers[i]) else t[i])
  }

  /** A read of one of these turns leaves more than the capacity. */
  predicate SomeBurst(t: seq<Client>, answers: seq<Answers>)
    requires |answers| <= |t|
  {
    exists i :: 0 <= i < |answers| && !Whole(AfterTurn(Shipped, t[i], answers[i]))
  }

  lemma SameBurst(t: seq<Client>, u: seq<Client>, answers: seq<Answers>)
    requires |answers| <= |t| && |answers| <= |u| && forall i :: 0 <= i < |answers| ==> u[i] == t[i]
    ensures SomeBurst(t, answers) <==> SomeBurst(u, answers)
  {
    hide AfterTurn, Whole;
  }

  /** The clients that stay. */
  ghost function KeptClients(cs: seq<ProxyClient>, t: seq<Client>, n: nat): (kc: seq<ProxyClient>)
    requires n <= |cs| && n <= |t|
    ensures |kc| == |Kept(t, n)|
  {
    if n == 0 then []
    else KeptClients(cs, t, n - 1) + if IsDone(t[n - 1]) then [] else [cs[n - 1]]
  }

  lemma NewStays(t: seq<Client>, answers: seq<Answers>, accepted: Option<(int, int)>)
    requires |answers| == |t|
    ensures var u := AfterTurns(Shipped, t, answers, accepted);
            && (forall i :: |t| <= i < |u| ==> !IsDone(u[i]))
            && ClosedFds(u, |u|) == ClosedFds(u, |t|)
  {
    var u := AfterTurns(Shipped, t, answers, accepted);
    if accepted.Some? {
      assert ClosedFds(u, |u|) == ClosedFds(u, |t|) + [];
    }
  }

  lemma {:induction false} KeptAmong(cs: seq<ProxyClient>, t: seq<Client>, n: nat)
    requires n <= |cs| && n <= |t|
    ensures forall c :: c in KeptClients(cs, t, n) ==> c in cs[..n]
  {
    hide IsDone;
    if n > 0 {
      KeptAmong(cs, t, n - 1);
    }
  }

  lemma {:induction false} KeptShow(cs: seq<ProxyClient>, t: seq<Client>, n: nat)
    requires n <= |cs| && n <= |t| && Separate(cs) && forall i :: 0 <= i < n ==> IsClient(cs[i], t[i])
    ensures Separate(KeptClients(cs, t, n))
    ensures forall i :: 0 <= i < |Kept(t, n)| ==> IsClient(KeptClients(cs, t, n)[i], Kept(t, n)[i])
    ensures forall i :: 0 <= i < |Kept(t, n)| ==> !IsDone(Kept(t, n)[i])
  {
    hide IsClient, Disjoint;
    if n > 0 {
      KeptShow(cs, t, n - 1);
      KeptAmong(cs, t, n - 1);
      var kc := KeptClients(cs, t, n - 1);
      forall i | 0 <= i < |kc|
        ensures Disjoint(kc[i], cs[n - 1])
      {
        assert kc[i] in cs[..n - 1];
      }
    }
  }
}
