/** The buffered line reader in its blocking form, against a specification that knows nothing of
    buffers and pieces. */
module LineReader {
  import opened Basics
  import opened Files

  // ---------------------------------------------------------------- what a call is meant to give

  /** The bytes up to and with the first line break, at most `m`. */
  function LineLength(s: seq<byte>, i: nat, m: nat): (n: nat)
    requires i <= m <= |s|
    ensures i <= n <= m
    decreases m - i
  {
    if i == m then m else if s[i] == NEWLINE then i + 1 else LineLength(s, i + 1, m)
  }

  /** The line is the shortest piece that ends with a line break or is full. */
  lemma {:induction false} LineLengthIsFirst(s: seq<byte>, i: nat, m: nat)
    requires i <= m <= |s|
    ensures var n := LineLength(s, i, m);
            && (forall j :: i <= j < n - 1 ==> s[j] != NEWLINE)
            && (n == m || (n > i && s[n - 1] == NEWLINE))
    decreases m - i
  {
    if i < m && s[i] != NEWLINE {
      LineLengthIsFirst(s, i + 1, m);
    }
  }

  /** The result of a call, the input it leaves, and whether a line break was put in. */
  datatype Result = Line(text: seq<byte>, rest: seq<byte>) | Eof

  /** One call on the remaining input `s` with room for `size` characters. */
  function NextLine(s: seq<byte>, size: nat): Result {
    if size <= 1 then Line([], s)
    else if s == [] then Eof
    else
      var n := LineLength(s, 0, Min(|s|, size - 1));
      if n < size - 1 && s[n - 1] != NEWLINE then Line(s + [NEWLINE], [])
      else Line(s[..n], s[n..])
  }

  /** The three forms a line can take, and no other. */
  lemma NextLineForms(s: seq<byte>, size: nat)
    requires size >= 2 && s != []
    ensures NextLine(s, size).Line?
    ensures
      var r := NextLine(s, size);
      && 0 < |r.text| < size && (forall j :: 0 <= j < |r.text| - 1 ==> r.text[j] != NEWLINE)
      && (if r.text + r.rest == s then r.text[|r.text| - 1] == NEWLINE || |r.text| == size - 1
          else r.text == s + [NEWLINE] && r.rest == [])
  {
    LineLengthIsFirst(s, 0, Min(|s|, size - 1));
  }

  // ---------------------------------------------------------------- successive calls

  /** The texts of successive calls with these sizes, joined, and the input that is left. */
  datatype Reading = Reading(text: seq<byte>, rest: seq<byte>)

  function Call(r: Reading, size: nat): Reading {
    var l := NextLine(r.rest, size);
    if l.Eof? then r else Reading(r.text + l.text, l.rest)
  }

  function Calls(s: seq<byte>, sizes: seq<nat>, n: nat): Reading
    requires n <= |sizes|
  {
    if n == 0 then Reading([], s) else Call(Calls(s, sizes, n - 1), sizes[n - 1])
  }

  /** The joined texts and what is left are the input, or the input with one line break put behind
      it, when all is read and the input does not end with one. */
  predicate Rebuilds(r: Reading, s: seq<byte>) {
    || r.text + r.rest == s
    || (r.rest == [] && r.text == s + [NEWLINE] && s != [] && s[|s| - 1] != NEWLINE)
  }

  lemma CallRebuilds(r: Reading, s: seq<byte>, size: nat)
    requires Rebuilds(r, s) && size >= 2
    ensures Rebuilds(Call(r, size), s)
    ensures |Call(r, size).rest| < |r.rest| || (Call(r, size) == r && r.rest == [])
  {
    if r.rest != [] {
      NextLineForms(r.rest, size);
      var l := NextLine(r.rest, size);
      if l.text + l.rest == r.rest {
        assert r.text + l.text + l.rest == r.text + (l.text + l.rest);
      } else {
        assert r.text + (r.rest + [NEWLINE]) == s + [NEWLINE];
        LastIsNoBreak(r.rest, size);
        assert s[|s| - 1] == r.rest[|r.rest| - 1];
      }
    }
  }

  lemma LastIsNoBreak(s: seq<byte>, size: nat)
    requires size >= 2 && s != [] && NextLine(s, size) == Line(s + [NEWLINE], [])
    ensures s[|s| - 1] != NEWLINE
  {
    LineLengthIsFirst(s, 0, Min(|s|, size - 1));
  }

  /** Whatever sizes are asked for, no byte is lost, doubled or put out of order, and enough calls
      read everything. */
  lemma {:induction false} CallsRebuildInput(s: seq<byte>, sizes: seq<nat>, n: nat)
    requires n <= |sizes| && forall i :: 0 <= i < n ==> sizes[i] >= 2
    ensures Rebuilds(Calls(s, sizes, n), s)
    ensures n >= |s| ==> Calls(s, sizes, n).rest == []
    ensures |Calls(s, sizes, n).rest| <= if n <= |s| then |s| - n else 0
  {
    hide Rebuilds, Call;
    if n > 0 {
      CallsRebuildInput(s, sizes, n - 1);
      CallRebuilds(Calls(s, sizes, n - 1), s, sizes[n - 1]);
    } else {
      NothingRead(s);
    }
  }

  lemma NothingRead(s: seq<byte>)
    ensures Rebuilds(Reading([], s), s)
  {
    assert [] + s == s;
  }

  // ---------------------------------------------------------------- the code

  /** `struct buffer`: `len` unread bytes from `pos` on. */
  class Buffer {
    const buf: array<byte>
    var pos: nat
    var len: nat

    ghost predicate Valid()
      reads this
    {
      buf.Length > 0 && pos + len <= buf.Length
    }

    ghost function Unread(): seq<byte>
      requires Valid()
      reads this, buf
    {
      buf[pos..pos + len]
    }

    constructor (cap: nat)
      requires cap > 0
      ensures Valid() && fresh(buf) && buf.Length == cap && Unread() == []
    {
      buf := new byte[cap];
      pos, len := 0, 0;
    }

    /** The search of `buf_consume_line`. */
    method FindLine(size: nat) returns (cnt: nat)
      requires Valid()
      ensures cnt == LineLength(Unread(), 0, Min(len, size))
    {
      cnt := if len <= size then len else size;
      var i := 0;
      while i < cnt
        invariant 0 <= i <= cnt == Min(len, size)
        invariant LineLength(Unread(), 0, cnt) == LineLength(Unread(), i, cnt)
      {
        if buf[pos + i] == NEWLINE {
          cnt := i + 1;
          break;
        }
        i := i + 1;
      }
    }

    /** `buf_consume_line` into `res` from place `at` on. */
    method ConsumeLine(res: array<byte>, at: nat, size: nat) returns (cnt: nat)
      requires Valid() && at + size <= res.Length && res != buf
      modifies this`pos, this`len, res
      ensures Valid()
      ensures cnt == LineLength(old(Unread()), 0, Min(old(len), size))
      ensures res[..at + cnt] == old(res[..at]) + old(Unread())[..cnt]
      ensures Unread() == old(Unread())[cnt..]
    {
      hide LineLength;
      cnt := FindLine(size);
      forall k | 0 <= k < cnt {
        res[at + k] := buf[pos + k];
      }
      pos := pos + cnt;
      len := len - cnt;
    }
  }

  /** A piece `u` of the input, searched from place `i` on, and the search over the whole input. */
  lemma {:induction false} PieceLength(s: seq<byte>, at: nat, m: nat, u: seq<byte>, i: nat, k: nat)
    requires i <= k <= |u| && at + k <= m <= |s| && at + |u| <= |s| && s[at..at + |u|] == u
    ensures
      var n := LineLength(u, i, k);
      LineLength(s, at + i, m)
      == if n > i && u[n - 1] == NEWLINE then at + n else LineLength(s, at + k, m)
    ensures var n := LineLength(u, i, k); !(n > i && u[n - 1] == NEWLINE) ==> n == k
    decreases k - i
  {
    if i < k {
      assert s[at..at + |u|][i] == s[at + i];
    }
    if i < k && u[i] != NEWLINE {
      PieceLength(s, at, m, u, i + 1, k);
    }
  }

  const RL_FAIL := -1
  const RL_EOF := -2

  /** The input that is still to come. */
  ghost function Remaining(f: File, b: Buffer): seq<byte>
    requires f.Valid() && b.Valid()
    reads f, b, b.buf
  {
    b.Unread() + f.content[f.pos..]
  }

  /** `at` bytes of `s`, without a line break, are in `res`, and the search goes on behind them. */
  ghost predicate Gathered(f: File, b: Buffer, res: array<byte>, at: nat, left: nat, s: seq<byte>)
    reads f, b, b.buf, res
  {
    && f.Valid() && b.Valid() && at + left < res.Length
    && s == res[..at] + Remaining(f, b)
    && LineLength(s, 0, Min(|s|, at + left)) == LineLength(s, at, Min(|s|, at + left))
    && (at > 0 ==> s[at - 1] != NEWLINE)
  }

  lemma SplitRest(s: seq<byte>, i: nat, j: nat)
    requires i <= j <= |s|
    ensures s[i..] == s[i..j] + s[j..]
  {
  }

  lemma AddNothing(s: seq<byte>)
    ensures [] + s == s
  {
  }

  /** The refill of an empty buffer. */
  method Refill(f: File, b: Buffer, ghost res: array<byte>, ghost at: nat, ghost left: nat, ghost s: seq<byte>)
    returns (n: int)
    requires Gathered(f, b, res, at, left, s) && b.len == 0 && res != b.buf
    modifies f`pos, b, b.buf
    ensures Gathered(f, b, res, at, left, s) && n >= -1
    ensures n > 0 ==> b.len == n
    ensures n <= 0 ==> b.len == 0
    ensures n == 0 ==> f.pos == |f.content|
  {
    n := f.Read(b.buf);
    if n > 0 {
      b.pos := 0;
      b.len := n;
      SplitRest(f.content, old(f.pos), f.pos);
      assert b.Unread() == f.content[old(f.pos)..f.pos];
      AddNothing(f.content[old(f.pos)..]);
    }
  }

  /** The body of the loop behind the refill. */
  method Gather(f: File, b: Buffer, res: array<byte>, at: nat, left: nat, ghost s: seq<byte>)
    returns (cnt: nat)
    requires Gathered(f, b, res, at, left, s) && b.len > 0 && left > 0 && res != b.buf
    modifies b`pos, b`len, res
    ensures 0 < cnt <= left && f.Valid() && b.Valid() && s == res[..at + cnt] + Remaining(f, b)
    ensures if res[at + cnt - 1] == NEWLINE
            then at + cnt == LineLength(s, 0, Min(|s|, at + left))
            else Gathered(f, b, res, at + cnt, left - cnt, s)
  {
    hide LineLength, Gathered;
    UnreadPiece(f, b, res, at, left, s);
    ghost var u, m := b.Unread(), Min(|s|, at + left);
    ghost var k := Min(b.len, left);
    PieceLength(s, at, m, u, 0, k);
    PositiveLength(u, k);
    ghost var was := res[..at];
    cnt := b.ConsumeLine(res, at, left);
    MovesOver(was, u, f.content[f.pos..], cnt);
    assert res[at + cnt - 1] == res[..at + cnt][at + cnt - 1];
    if res[at + cnt - 1] != NEWLINE {
      GoesOn(f, b, res, at + cnt, left - cnt, s);
    }
  }

  lemma MovesOver(was: seq<byte>, u: seq<byte>, tail: seq<byte>, cnt: nat)
    requires cnt <= |u|
    ensures was + (u + tail) == (was + u[..cnt]) + (u[cnt..] + tail)
  {
  }

  lemma UnreadPiece(f: File, b: Buffer, res: array<byte>, at: nat, left: nat, s: seq<byte>)
    requires Gathered(f, b, res, at, left, s)
    ensures f.Valid() && b.Valid() && at + left < res.Length
    ensures var u := b.Unread(); at + |u| <= |s| && s[at..at + |u|] == u && |u| == b.len
    ensures s == res[..at] + (b.Unread() + f.content[f.pos..])
    ensures LineLength(s, 0, Min(|s|, at + left)) == LineLength(s, at, Min(|s|, at + left))
  {
  }

  lemma GoesOn(f: File, b: Buffer, res: array<byte>, at: nat, left: nat, s: seq<byte>)
    requires f.Valid() && b.Valid() && 0 < at && at + left < res.Length && s == res[..at] + Remaining(f, b)
    requires LineLength(s, 0, Min(|s|, at + left)) == LineLength(s, at, Min(|s|, at + left))
    requires res[at - 1] != NEWLINE
    ensures Gathered(f, b, res, at, left, s)
  {
  }

  lemma PositiveLength(u: seq<byte>, k: nat)
    requires 0 < k <= |u|
    ensures LineLength(u, 0, k) > 0
  {
  }

  lemma NoRoom(s: seq<byte>)
    ensures NextLine(s, 0) == Line([], s)
  {
  }

  lemma StartsGathering(f: File, b: Buffer, res: array<byte>, left: nat)
    requires f.Valid() && b.Valid() && left < res.Length
    ensures Gathered(f, b, res, 0, left, Remaining(f, b))
  {
  }

  /** At the end of the input what was gathered becomes a line, if there is anything. */
  lemma InputEnds(f: File, b: Buffer, res: array<byte>, at: nat, left: nat, s: seq<byte>)
    requires Gathered(f, b, res, at, left, s) && b.len == 0 && f.pos == |f.content| && left > 0
    ensures s == res[..at] && Remaining(f, b) == []
    ensures NextLine(s, at + left + 1) == if at == 0 then Eof else Line(s + [NEWLINE], [])
  {
    assert LineLength(s, at, at) == at;
  }

  lemma GatheredLost(f: File, b: Buffer, res: array<byte>, at: nat, left: nat, s: seq<byte>)
    requires Gathered(f, b, res, at, left, s)
    ensures at <= |s| && Remaining(f, b) == s[at..]
  {
  }

  lemma BreakEnds(text: seq<byte>, rest: seq<byte>, s: seq<byte>, size: nat)
    requires s == text + rest && text != [] && text[|text| - 1] == NEWLINE && size >= 2
    requires |text| == LineLength(s, 0, Min(|s|, size - 1))
    ensures NextLine(s, size) == Line(text, rest)
  {
  }

  lemma FullEnds(f: File, b: Buffer, res: array<byte>, at: nat, s: seq<byte>)
    requires Gathered(f, b, res, at, 0, s)
    ensures NextLine(s, at + 1) == Line(res[..at], Remaining(f, b))
  {
    assert LineLength(s, at, at) == at;
  }

  /** End of file: what was gathered gets a line break, if there is anything. */
  method EndLine(f: File, b: Buffer, res: array<byte>, at: nat, left: nat, ghost s: seq<byte>) returns (r: int)
    requires Gathered(f, b, res, at, left, s) && b.len == 0 && f.pos == |f.content| && left > 0
    requires res != b.buf
    modifies res
    ensures Remaining(f, b) == []
    ensures if at == 0 then r == RL_EOF && NextLine(s, at + left + 1).Eof?
            else r == at + 1 && NextLine(s, at + left + 1) == Line(res[..r], []) && res[r] == 0
  {
    hide NextLine, Remaining;
    InputEnds(f, b, res, at, left, s);
    if at == 0 {
      return RL_EOF;
    }
    res[at] := NEWLINE;
    assert res[..at + 1] == s + [NEWLINE];
    res[at + 1] := 0;
    return at + 1;
  }

  /** `read_line` without a timeout. The result depends on the remaining input and the size alone:
      not on the capacity of the buffer, and not on how read splits the input. A failing read
      loses the bytes gathered so far. */
  method ReadLine(f: File, b: Buffer, res: array<byte>, size: nat) returns (r: int)
    requires f.Valid() && b.Valid() && size <= res.Length && res != b.buf
    modifies f`pos, b, b.buf, res
    ensures f.Valid() && b.Valid() && (RL_EOF <= r < size || r == size == 0)
    ensures r >= 0 ==> NextLine(old(Remaining(f, b)), size) == Line(res[..r], Remaining(f, b))
    ensures r >= 0 && size > 0 ==> res[r] == 0
    ensures r == RL_EOF ==> NextLine(old(Remaining(f, b)), size).Eof? && Remaining(f, b) == []
    ensures r == RL_FAIL ==>
      exists lost: nat :: lost < size && lost <= |old(Remaining(f, b))|
        && Remaining(f, b) == old(Remaining(f, b))[lost..]
  {
    hide LineLength, Gathered, NextLine, Remaining;
    ghost var s := Remaining(f, b);
    NoRoom(s);
    if size == 0 {
      return 0;
    }
    var at: nat, left: nat := 0, size - 1;
    StartsGathering(f, b, res, left);
    var done := false;
    while left > 0 && !done
      invariant at + left == size - 1 && f.Valid() && b.Valid()
      invariant s == res[..at] + Remaining(f, b)
      invariant !done ==> Gathered(f, b, res, at, left, s)
      invariant done ==> at > 0 && NextLine(s, size) == Line(res[..at], Remaining(f, b))
      decreases left, !done
    {
      var n := 1;
      if b.len == 0 {
        n := Refill(f, b, res, at, left, s);
      }
      if n == 0 {
        r := EndLine(f, b, res, at, left, s);
        return;
      }
      if n == -1 {
        GatheredLost(f, b, res, at, left, s);
        return RL_FAIL;
      }
      var cnt := Gather(f, b, res, at, left, s);
      at, left := at + cnt, left - cnt;
      if res[at - 1] == NEWLINE {
        BreakEnds(res[..at], Remaining(f, b), s, size);
        done := true;
      }
    }
    if !done {
      FullEnds(f, b, res, at, s);
    }
    res[at] := 0;
    r := at;
  }
}
