/** The bytes of one connection among the atoms that travel. */
module Payloads {
  import opened Basics
  import opened Wire

  function Part(a: Atom, id: byte): seq<byte> {
    if a.Byte? && a.id == id then [a.b] else []
  }

  /** The payload bytes of connection `id` among the first `n` atoms. */
  function PayloadUpTo(atoms: seq<Atom>, n: nat, id: byte): seq<byte>
    requires n <= |atoms|
  {
    if n == 0 then [] else PayloadUpTo(atoms, n - 1, id) + Part(atoms[n - 1], id)
  }

  function Payload(atoms: seq<Atom>, id: byte): seq<byte> {
    PayloadUpTo(atoms, |atoms|, id)
  }

  lemma {:induction false} PayloadOfFront(a: seq<Atom>, b: seq<Atom>, n: nat, id: byte)
    requires n <= |a|
    ensures PayloadUpTo(a + b, n, id) == PayloadUpTo(a, n, id)
  {
    if n > 0 {
      PayloadOfFront(a, b, n - 1, id);
      assert (a + b)[n - 1] == a[n - 1];
    }
  }

  lemma {:induction false} PayloadBehind(a: seq<Atom>, b: seq<Atom>, n: nat, m: nat, id: byte)
    requires n <= |b| && m == |a| + n
    ensures PayloadUpTo(a + b, m, id) == Payload(a, id) + PayloadUpTo(b, n, id)
  {
    if n == 0 {
      PayloadOfFront(a, b, |a|, id);
    } else {
      PayloadBehind(a, b, n - 1, m - 1, id);
      assert (a + b)[m - 1] == b[n - 1];
    }
  }

  lemma PayloadConcat(a: seq<Atom>, b: seq<Atom>, id: byte)
    ensures Payload(a + b, id) == Payload(a, id) + Payload(b, id)
  {
    PayloadBehind(a, b, |b|, |a + b|, id);
  }

  lemma {:induction false} PayloadOfOwnBytes(p: seq<byte>, n: nat, id: byte)
    requires n <= |p|
    ensures PayloadUpTo(Bytes(id, p), n, id) == p[..n]
  {
    if n > 0 {
      PayloadOfOwnBytes(p, n - 1, id);
      assert Part(Bytes(id, p)[n - 1], id) == [p[n - 1]];
      assert p[..n] == p[..n - 1] + [p[n - 1]];
    }
  }

  lemma {:induction false} PayloadOfOthersBytes(t: byte, p: seq<byte>, n: nat, id: byte)
    requires n <= |p| && t != id
    ensures PayloadUpTo(Bytes(t, p), n, id) == []
  {
    if n > 0 {
      PayloadOfOthersBytes(t, p, n - 1, id);
      assert Bytes(t, p)[n - 1] == Byte(t, p[n - 1]);
      assert [] + Part(Byte(t, p[n - 1]), id) == [];
    }
  }

  lemma PayloadOfBytes(t: byte, p: seq<byte>, id: byte)
    ensures Payload(Bytes(t, p), id) == if t == id then p else []
  {
    if t == id {
      PayloadOfOwnBytes(p, |p|, id);
    } else {
      PayloadOfOthersBytes(t, p, |p|, id);
    }
  }

  lemma PayloadOfOne(a: Atom, id: byte)
    ensures Payload([a], id) == Part(a, id)
  {
    assert PayloadUpTo([a], 0, id) == [];
  }

  lemma PayloadOfFrame(t: byte, p: seq<byte>, id: byte)
    ensures Payload([Open(t)] + Bytes(t, p), id) == if t == id then p else []
  {
    PayloadConcat([Open(t)], Bytes(t, p), id);
    PayloadOfOne(Open(t), id);
    PayloadOfBytes(t, p, id);
  }
}
