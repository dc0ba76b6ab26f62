/** What the bytes of the tunnel mean. `Read` is the reference reader of a whole byte string;
    the receiver of pump.c, which sees the bytes piece by piece, is proved against it. */
module Wire {
  import opened Basics
  import opened Framing

  /** A frame of the tunnel. */
  datatype Item = Data(id: byte, payload: seq<byte>) | Order(command: Command)

  /** The smallest things that travel: the head of a data frame, one payload byte, a command. */
  datatype Atom = Open(id: byte) | Byte(id: byte, b: byte) | Given(command: Command)

  function Encoding(item: Item): seq<byte> {
    match item
    case Data(id, p) => Frame(id, p)
    case Order(c) => CommandFrame(c.cmd, c.arg)
  }

  function Bytes(id: byte, p: seq<byte>): seq<Atom> {
    seq(|p|, k requires 0 <= k < |p| => Byte(id, p[k]))
  }

  function Atoms(item: Item): seq<Atom> {
    match item
    case Data(id, p) => [Open(id)] + Bytes(id, p)
    case Order(c) => [Given(c)]
  }

  /** Identifier 0 marks commands. */
  predicate ItemOk(item: Item) {
    item.Data? ==> item.id != 0
  }

  /** Where a reader stands: the place, the connection whose frame is open, what it has read. */
  datatype Reader = Reader(pos: nat, target: Option<byte>, out: seq<Atom>)

  /** The unit in front of the reader is there in full and well formed. */
  predicate CanRead(w: seq<byte>, pos: nat, target: Option<byte>) {
    match target
    case Some(id) => pos < |w| && (w[pos] == END_BYTE || pos + UnitLength(w[pos]) <= |w|)
    case None =>
      pos + 1 < |w| && w[pos] == END_BYTE && (w[pos + 1] == 0 ==> pos + 4 < |w|)
  }

  /** Reads one unit: an end byte, a payload byte, the head of a data frame, or a command. */
  function ReadOne(w: seq<byte>, r: Reader): (r': Reader)
    requires CanRead(w, r.pos, r.target)
    ensures r.pos < r'.pos <= |w|
  {
    match r.target
    case Some(id) =>
      if w[r.pos] == END_BYTE then Reader(r.pos + 1, None, r.out)
      else
        var j := r.pos + UnitLength(w[r.pos]);
        Reader(j, r.target, r.out + [Byte(id, w[j - 1])])
    case None =>
      if w[r.pos + 1] != 0
      then Reader(r.pos + 2, Some(w[r.pos + 1]), r.out + [Open(w[r.pos + 1])])
      else Reader(r.pos + 5, None, r.out + [Given(Command(w[r.pos + 2], w[r.pos + 3]))])
  }

  /** Reads as far as the bytes go; stops early only in front of an incomplete or wrong unit. */
  function Read(w: seq<byte>, r: Reader): (r': Reader)
    decreases |w| - r.pos
  {
    if CanRead(w, r.pos, r.target) then Read(w, ReadOne(w, r)) else r
  }

  function Start(): Reader {
    Reader(0, None, [])
  }

  /** The result keeps what was read before. */
  lemma {:induction false} ReadKeeps(w: seq<byte>, r: Reader)
    ensures r.out <= Read(w, r).out
    decreases |w| - r.pos
  {
    if CanRead(w, r.pos, r.target) {
      ReadKeeps(w, ReadOne(w, r));
    }
  }

  /** Reading only appends to the record. */
  lemma {:induction false} ReadAppends(w: seq<byte>, r: Reader, before: seq<Atom>)
    ensures var e := Read(w, r);
            Read(w, Reader(r.pos, r.target, before + r.out)) == Reader(e.pos, e.target, before + e.out)
    decreases |w| - r.pos
  {
    if CanRead(w, r.pos, r.target) {
      var n := ReadOne(w, r);
      var r' := Reader(r.pos, r.target, before + r.out);
      assert ReadOne(w, r') == Reader(n.pos, n.target, before + n.out);
      ReadAppends(w, n, before);
    }
  }

  /** Reading depends only on the bytes from the place on. */
  lemma {:induction false} ReadMoves(w: seq<byte>, u: seq<byte>, k: nat, r: Reader)
    requires k <= r.pos <= |w| && |u| == |w| - k && forall j :: 0 <= j < |u| ==> u[j] == w[k + j]
    ensures var e := Read(u, Reader(r.pos - k, r.target, r.out));
            Read(w, r) == Reader(k + e.pos, e.target, e.out)
    decreases |w| - r.pos
  {
    var r' := Reader(r.pos - k, r.target, r.out);
    assert forall j :: k <= j < |w| ==> w[j] == u[j - k];
    if CanRead(w, r.pos, r.target) {
      var n := ReadOne(w, r);
      assert ReadOne(u, r') == Reader(n.pos - k, n.target, n.out);
      ReadMoves(w, u, k, n);
    }
  }

  /** A reading that reaches the end of the bytes goes on with what follows them. */
  lemma {:induction false} ReadGoesOn(w: seq<byte>, more: seq<byte>, r: Reader)
    requires Read(w, r).pos == |w|
    ensures Read(w + more, r) == Read(w + more, Read(w, r))
    decreases |w| - r.pos
  {
    if CanRead(w, r.pos, r.target) {
      assert ReadOne(w + more, r) == ReadOne(w, r);
      ReadGoesOn(w, more, ReadOne(w, r));
    }
  }

  lemma BytesOneMore(id: byte, p: seq<byte>, n: nat)
    requires n < |p|
    ensures Bytes(id, p[..n + 1]) == Bytes(id, p[..n]) + [Byte(id, p[n])]
  {
  }

  lemma ReadPayloadByte(w: seq<byte>, id: byte, b: byte, out: seq<Atom>)
    ensures Read(w + StuffByte(b), Reader(|w|, Some(id), out))
            == Reader(|w + StuffByte(b)|, Some(id), out + [Byte(id, b)])
  {
    var w' := w + StuffByte(b);
    assert w'[|w|] == StuffByte(b)[0] && w'[|w'| - 1] == b;
    assert ReadOne(w', Reader(|w|, Some(id), out)) == Reader(|w'|, Some(id), out + [Byte(id, b)]);
  }

  /** A reader in an open frame reads the stuffed form of `n` payload bytes as those bytes. */
  lemma {:induction false} ReadPayload(w: seq<byte>, id: byte, p: seq<byte>, n: nat, out: seq<Atom>)
    requires n <= |p|
    ensures Read(w + Stuff(p, n), Reader(|w|, Some(id), out))
            == Reader(|w + Stuff(p, n)|, Some(id), out + Bytes(id, p[..n]))
  {
    if n == 0 {
      assert w + Stuff(p, 0) == w && out + Bytes(id, p[..0]) == out;
    } else {
      ReadPayload(w, id, p, n - 1, out);
      ReadPayloadGoesOn(w, id, p, n - 1, out);
    }
  }

  lemma ReadPayloadGoesOn(w: seq<byte>, id: byte, p: seq<byte>, n: nat, out: seq<Atom>)
    requires n < |p|
    requires Read(w + Stuff(p, n), Reader(|w|, Some(id), out))
             == Reader(|w + Stuff(p, n)|, Some(id), out + Bytes(id, p[..n]))
    ensures Read(w + Stuff(p, n + 1), Reader(|w|, Some(id), out))
            == Reader(|w + Stuff(p, n + 1)|, Some(id), out + Bytes(id, p[..n + 1]))
  {
    var w' := w + Stuff(p, n);
    assert w' + StuffByte(p[n]) == w + Stuff(p, n + 1);
    hide Read, Stuff, StuffByte;
    var out' := out + Bytes(id, p[..n]);
    ReadGoesOn(w', StuffByte(p[n]), Reader(|w|, Some(id), out));
    ReadPayloadByte(w', id, p[n], out');
    assert out' + [Byte(id, p[n])] == out + Bytes(id, p[..n + 1]) by {
      BytesOneMore(id, p, n);
    }
  }

  /** One more frame behind complete frames is read as exactly that frame, although the
      identifier, the command and its argument travel unescaped. */
  lemma ReadItem(w: seq<byte>, item: Item, out: seq<Atom>)
    requires ItemOk(item)
    ensures Read(w + Encoding(item), Reader(|w|, None, out))
            == Reader(|w + Encoding(item)|, None, out + Atoms(item))
  {
    match item {
      case Data(id, p) =>
        ReadDataFrame(w, id, p, out);
      case Order(c) =>
        var w' := w + Encoding(item);
        assert w'[|w| + 1] == 0 && w'[|w| + 2] == c.cmd && w'[|w| + 3] == c.arg;
        assert ReadOne(w', Reader(|w|, None, out)) == Reader(|w'|, None, out + [Given(c)]);
    }
  }

  lemma ReadHead(w: seq<byte>, id: byte, out: seq<Atom>)
    requires id != 0
    ensures Read(w + [END_BYTE, id], Reader(|w|, None, out)) == Reader(|w| + 2, Some(id), out + [Open(id)])
  {
    var w1 := w + [END_BYTE, id];
    assert ReadOne(w1, Reader(|w|, None, out)) == Reader(|w1|, Some(id), out + [Open(id)]);
  }

  lemma ReadEnd(w: seq<byte>, id: byte, out: seq<Atom>)
    ensures Read(w + [END_BYTE], Reader(|w|, Some(id), out)) == Reader(|w| + 1, None, out)
  {
    assert ReadOne(w + [END_BYTE], Reader(|w|, Some(id), out)) == Reader(|w| + 1, None, out);
  }

  lemma JoinsInParts<T>(a: seq<T>, b: seq<T>, c: seq<T>, d: seq<T>)
    ensures a + b + c == a + (b + c) && a + b + c + d == a + (b + c + d)
  {
  }

  lemma FrameInParts(w: seq<byte>, id: byte, p: seq<byte>, out: seq<Atom>)
    ensures w + [END_BYTE, id] + Stuff(p, |p|) + [END_BYTE] == w + Frame(id, p)
    ensures out + [Open(id)] + Bytes(id, p[..|p|]) == out + ([Open(id)] + Bytes(id, p))
  {
    hide Bytes;
    assert p[..|p|] == p;
    JoinsInParts(w, [END_BYTE, id], Stuff(p, |p|), [END_BYTE]);
    JoinsInParts(out, [Open(id)], Bytes(id, p), []);
  }

  lemma ReadDataFrame(w: seq<byte>, id: byte, p: seq<byte>, out: seq<Atom>)
    requires id != 0
    ensures Read(w + Frame(id, p), Reader(|w|, None, out))
            == Reader(|w + Frame(id, p)|, None, out + ([Open(id)] + Bytes(id, p)))
  {
    hide Read, Stuff, Frame, Bytes, CanRead, ReadOne;
    var r := Reader(|w|, None, out);
    var w1 := w + [END_BYTE, id];
    var w2 := w1 + Stuff(p, |p|);
    var head := out + [Open(id)];
    ReadHead(w, id, out);
    ReadGoesOn(w1, Stuff(p, |p|), r);
    ReadPayload(w1, id, p, |p|, head);
    ReadGoesOn(w2, [END_BYTE], r);
    ReadEnd(w2, id, head + Bytes(id, p[..|p|]));
    FrameInParts(w, id, p, out);
  }

  /** The frames of the first `n` items, and their meaning. */
  function EncodingAll(items: seq<Item>, n: nat): seq<byte>
    requires n <= |items|
  {
    if n == 0 then [] else EncodingAll(items, n - 1) + Encoding(items[n - 1])
  }

  function AtomsAll(items: seq<Item>, n: nat): seq<Atom>
    requires n <= |items|
  {
    if n == 0 then [] else AtomsAll(items, n - 1) + Atoms(items[n - 1])
  }

  lemma {:induction false} AllOfFront(items: seq<Item>, item: Item, n: nat)
    requires n <= |items|
    ensures EncodingAll(items + [item], n) == EncodingAll(items, n)
    ensures AtomsAll(items + [item], n) == AtomsAll(items, n)
  {
    hide Encoding, Atoms;
    if n > 0 {
      AllOfFront(items, item, n - 1);
      assert (items + [item])[n - 1] == items[n - 1];
    }
  }

  lemma AppendItem(items: seq<Item>, item: Item)
    ensures EncodingAll(items + [item], |items + [item]|) == EncodingAll(items, |items|) + Encoding(item)
    ensures AtomsAll(items + [item], |items + [item]|) == AtomsAll(items, |items|) + Atoms(item)
  {
    hide Encoding, Atoms;
    AllOfFront(items, item, |items|);
  }

  /** Any frames one behind the other are read back as the same list, in order. */
  lemma {:induction false} FramesReadBack(items: seq<Item>, n: nat)
    requires n <= |items| && forall k :: 0 <= k < n ==> ItemOk(items[k])
    ensures Read(EncodingAll(items, n), Start())
            == Reader(|EncodingAll(items, n)|, None, AtomsAll(items, n))
  {
    hide Encoding, Atoms;
    if n > 0 {
      FramesReadBack(items, n - 1);
      var w := EncodingAll(items, n - 1);
      ReadGoesOn(w, Encoding(items[n - 1]), Start());
      ReadItem(w, items[n - 1], AtomsAll(items, n - 1));
    }
  }

  // ---------------------------------------------------------------- no two lists look alike

  /** One more atom: a head or a command begins an item, a byte belongs to the last one. */
  function Group(items: seq<Item>, a: Atom): seq<Item> {
    match a
    case Open(id) => items + [Data(id, [])]
    case Given(c) => items + [Order(c)]
    case Byte(id, b) =>
      if items == [] || items[|items| - 1].Order? then items
      else
        var last := items[|items| - 1];
        items[..|items| - 1] + [Data(last.id, last.payload + [b])]
  }

  /** The items that the first `n` atoms make up. */
  function Regroup(atoms: seq<Atom>, n: nat): seq<Item>
    requires n <= |atoms|
  {
    if n == 0 then [] else Group(Regroup(atoms, n - 1), atoms[n - 1])
  }

  lemma {:induction false} RegroupFront(a: seq<Atom>, b: seq<Atom>, n: nat)
    requires n <= |a|
    ensures Regroup(a + b, n) == Regroup(a, n)
  {
    if n > 0 {
      RegroupFront(a, b, n - 1);
    }
  }

  lemma {:induction false} RegroupFrame(a: seq<Atom>, id: byte, p: seq<byte>, k: nat)
    requires k <= |p|
    ensures Regroup(a + ([Open(id)] + Bytes(id, p)), |a| + 1 + k) == Regroup(a, |a|) + [Data(id, p[..k])]
  {
    var w := a + ([Open(id)] + Bytes(id, p));
    if k == 0 {
      RegroupFront(a, [Open(id)] + Bytes(id, p), |a|);
      assert w[|a|] == Open(id);
    } else {
      RegroupFrame(a, id, p, k - 1);
      assert w[|a| + k] == Byte(id, p[k - 1]);
      assert p[..k - 1] + [p[k - 1]] == p[..k];
      ByteJoins(Regroup(a, |a|), id, p[..k - 1], p[k - 1]);
    }
  }

  lemma ByteJoins(items: seq<Item>, id: byte, p: seq<byte>, b: byte)
    ensures Group(items + [Data(id, p)], Byte(id, b)) == items + [Data(id, p + [b])]
  {
    assert (items + [Data(id, p)])[..|items|] == items;
  }

  lemma RegroupItem(a: seq<Atom>, item: Item)
    ensures Regroup(a + Atoms(item), |a + Atoms(item)|) == Regroup(a, |a|) + [item]
  {
    match item {
      case Data(id, p) =>
        RegroupFrame(a, id, p, |p|);
        assert p[..|p|] == p;
      case Order(c) =>
        RegroupFront(a, Atoms(item), |a|);
    }
  }

  lemma {:induction false} RegroupAtoms(items: seq<Item>, n: nat)
    requires n <= |items|
    ensures Regroup(AtomsAll(items, n), |AtomsAll(items, n)|) == items[..n]
  {
    hide Atoms, Regroup;
    if n > 0 {
      RegroupAtoms(items, n - 1);
      RegroupItem(AtomsAll(items, n - 1), items[n - 1]);
      assert items[..n - 1] + [items[n - 1]] == items[..n];
    } else {
      NothingToGroup();
    }
  }

  lemma NothingToGroup()
    ensures Regroup([], 0) == []
  {
  }

  /** Two lists of frames and commands that give the same bytes are the same list. */
  lemma FramesAreUnambiguous(items: seq<Item>, others: seq<Item>)
    requires forall k :: 0 <= k < |items| ==> ItemOk(items[k])
    requires forall k :: 0 <= k < |others| ==> ItemOk(others[k])
    ensures EncodingAll(items, |items|) == EncodingAll(others, |others|) <==> items == others
  {
    hide Read, Regroup;
    FramesReadBack(items, |items|);
    FramesReadBack(others, |others|);
    RegroupAtoms(items, |items|);
    RegroupAtoms(others, |others|);
    assert items[..|items|] == items && others[..|others|] == others;
  }
}
