/** `struct connection`: two ring buffers and three bytes of flags. */
module Connections {
  import opened Ring
  import opened RoundBuffers

  /** The size of a table of connections by identifier. */
  const MAX_CONNECTIONS := 256

  /** The bits of a state byte: CS_NEW, CS_EOF, CS_CLOSED, CS_DELETE, CS_STOPPED. */
  datatype Flags = Flags(isNew: bool, eof: bool, closed: bool, delete: bool, stopped: bool) {
    predicate IsAlive() {
      !eof && !closed && !delete
    }

    predicate ShouldClose() {
      eof || delete
    }
  }

  const NO_FLAGS := Flags(false, false, false, false, false)

  /** A connection as a value. */
  datatype Conn = Conn(
    id: int, state: Flags, inState: Flags, outState: Flags, inb: Ring, outb: Ring)
  {
    predicate Valid() {
      inb.Valid() && outb.Valid()
    }
  }

  /** How many bytes the two buffers of a connection take. */
  function Sizes(c: Conn): (nat, nat) {
    (|c.inb.data|, |c.outb.data|)
  }

  class Connection {
    var id: int
    var state: Flags
    var inState: Flags
    var outState: Flags
    const inBuf: RoundBuffer
    const outBuf: RoundBuffer

    ghost function View(): Conn
      reads this, inBuf, inBuf.buffer, outBuf, outBuf.buffer
    {
      Conn(id, state, inState, outState, inBuf.Model(), outBuf.Model())
    }

    /** `make_connection`. */
    constructor (inSize: nat, outSize: nat, id: int)
      ensures this.id == id && state == inState == outState == NO_FLAGS
      ensures fresh(inBuf) && fresh(outBuf) && fresh(inBuf.buffer) && fresh(outBuf.buffer)
      ensures inBuf.Valid() && outBuf.Valid() && Apart(this)
      ensures inBuf.Model().Contents() == [] && outBuf.Model().Contents() == []
      ensures inBuf.buffer.Length == inSize && outBuf.buffer.Length == outSize
    {
      this.id := id;
      state, inState, outState := NO_FLAGS, NO_FLAGS, NO_FLAGS;
      var i := new RoundBuffer(inSize);
      var o := new RoundBuffer(outSize);
      inBuf := i;
      outBuf := o;
    }
  }

  /** The two buffers of a connection do not share memory. */
  predicate Apart(c: Connection) {
    c.inBuf != c.outBuf && c.inBuf.buffer != c.outBuf.buffer
  }

  /** Two connections share no memory. */
  predicate Disjoint(c: Connection, d: Connection) {
    && c.inBuf != d.inBuf && c.inBuf != d.outBuf && c.outBuf != d.inBuf && c.outBuf != d.outBuf
    && c.inBuf.buffer != d.inBuf.buffer && c.inBuf.buffer != d.outBuf.buffer
    && c.outBuf.buffer != d.inBuf.buffer && c.outBuf.buffer != d.outBuf.buffer
  }

  /** The connections of a table with gaps are different objects and share no memory. */
  predicate Separate(cs: seq<Connection?>) {
    && (forall i :: 0 <= i < |cs| && cs[i] != null ==> Apart(cs[i]))
    && (forall i, j :: 0 <= i < j < |cs| && cs[i] != null && cs[j] != null ==>
          cs[i] != cs[j] && Disjoint(cs[i], cs[j]))
  }

  /** No other buffer of the table is the in_buf of entry `i`. */
  lemma InputApart(tab: seq<Connection?>, i: nat)
    requires Separate(tab) && i < |tab| && tab[i] != null
    ensures forall j :: 0 <= j < |tab| && tab[j] != null ==>
      tab[j].outBuf != tab[i].inBuf && tab[j].outBuf.buffer != tab[i].inBuf.buffer
    ensures forall j :: 0 <= j < |tab| && tab[j] != null && j != i ==>
      tab[j].inBuf != tab[i].inBuf && tab[j].inBuf.buffer != tab[i].inBuf.buffer
  {
    forall j | 0 <= j < |tab| && tab[j] != null && j != i
      ensures Disjoint(tab[j], tab[i]) || Disjoint(tab[i], tab[j])
    {
    }
    assert Apart(tab[i]);
  }
}
