/** Two ways to list the lines of a file: reading it piece by piece, and scanning it in memory. */
module LineIndex {
  import opened Basics
  import opened Files

  datatype Line = Line(offset: nat, len: nat)

  const BUF_SIZE := 1024

  /** Where the line begins that byte `n` belongs to. */
  function Start(s: seq<byte>, n: nat): (i: nat)
    requires n <= |s|
    ensures i <= n
  {
    if n == 0 then 0 else if s[n - 1] == NEWLINE then n else Start(s, n - 1)
  }

  /** The lines that end within the first `n` bytes. */
  function Lines(s: seq<byte>, n: nat): seq<Line>
    requires n <= |s|
  {
    if n == 0 then []
    else if s[n - 1] == NEWLINE
    then Lines(s, n - 1) + [Line(Start(s, n - 1), n - 1 - Start(s, n - 1))]
    else Lines(s, n - 1)
  }

  /** The list with what stands behind the last line break as a last line, maybe empty. */
  function AllLines(s: seq<byte>): seq<Line> {
    Lines(s, |s|) + [Line(Start(s, |s|), |s| - Start(s, |s|))]
  }

  /** `scan_file` of the mmap exercise. */
  method ScanMapped(ptr: array<byte>) returns (list: seq<Line>)
    ensures list == Lines(ptr[..], ptr.Length)
  {
    list := [];
    var offset := 0;
    for i := 0 to ptr.Length
      invariant offset == Start(ptr[..], i) && list == Lines(ptr[..], i)
    {
      if ptr[i] == NEWLINE {
        list := list + [Line(offset, i - offset)];
        offset := i + 1;
      }
    }
  }

  /** Where `scan_file` stands in front of byte `n`: the line under way begins there if `newLine`. */
  predicate Standing(s: seq<byte>, n: nat, offset: nat, newLine: bool)
    requires n <= |s|
  {
    newLine == (Start(s, n) == n) && (!newLine ==> offset == Start(s, n))
  }

  /** The loop over one piece, which lies at `pos` in the file. */
  method ScanPiece(buf: array<byte>, n: nat, pos: nat, offset0: nat, newLine0: bool, list0: seq<Line>,
                   ghost s: seq<byte>)
    returns (offset: nat, newLine: bool, list: seq<Line>)
    requires n <= buf.Length && pos + n <= |s| && buf[..n] == s[pos..pos + n]
    requires Standing(s, pos, offset0, newLine0) && list0 == Lines(s, pos)
    ensures Standing(s, pos + n, offset, newLine) && list == Lines(s, pos + n)
  {
    offset, newLine, list := offset0, newLine0, list0;
    for i := 0 to n
      invariant Standing(s, pos + i, offset, newLine) && list == Lines(s, pos + i)
    {
      assert buf[..n][i] == s[pos + i];
      if newLine {
        offset := pos + i;
        newLine := false;
      }
      if buf[i] == NEWLINE {
        list := list + [Line(offset, pos + i - offset)];
        newLine := true;
      }
    }
  }

  /** `scan_file` of the file exercise, however read splits the file; it fails only with read. */
  method ScanFile(f: File, buf: array<byte>) returns (ok: bool, list: seq<Line>)
    requires f.Valid() && f.pos == 0 && buf.Length == BUF_SIZE
    modifies f`pos, buf
    ensures ok ==> list == AllLines(f.content)
  {
    list := [];
    var offset, newLine, eof := 0, true, false;
    while !eof
      invariant f.Valid()
      invariant eof ==> list == AllLines(f.content)
      invariant !eof ==> Standing(f.content, f.pos, offset, newLine) && list == Lines(f.content, f.pos)
      decreases |f.content| - f.pos, !eof
    {
      var pos := f.pos;
      var n := f.Read(buf);
      if n == -1 {
        return false, list;
      }
      if n == 0 {
        buf[0] := NEWLINE;
        n := 1;
        eof := true;
        ghost var s := f.content + [NEWLINE];
        AtEnd(f.content, s);
        assert buf[..n] == s[pos..pos + n];
        offset, newLine, list := ScanPiece(buf, n, pos, offset, newLine, list, s);
      } else {
        offset, newLine, list := ScanPiece(buf, n, pos, offset, newLine, list, f.content);
      }
    }
    ok := true;
  }

  lemma BreakBehind(s: seq<byte>)
    ensures Start(s + [NEWLINE], |s|) == Start(s, |s|) && Lines(s + [NEWLINE], |s|) == Lines(s, |s|)
  {
    SameBytes(s + [NEWLINE], s, |s|);
  }

  /** The line break put behind the file ends its last line. */
  lemma AtEnd(s: seq<byte>, t: seq<byte>)
    requires t == s + [NEWLINE]
    ensures Start(t, |s|) == Start(s, |s|) && Lines(t, |s|) == Lines(s, |s|)
    ensures Lines(t, |s| + 1) == AllLines(s)
  {
    BreakBehind(s);
    BreakEndsLine(t, |s|, Start(s, |s|));
  }

  lemma BreakEndsLine(t: seq<byte>, n: nat, k: nat)
    requires n < |t| && t[n] == NEWLINE && k == Start(t, n)
    ensures Lines(t, n + 1) == Lines(t, n) + [Line(k, n - k)]
  {
  }

  lemma {:induction false} SameBytes(s: seq<byte>, t: seq<byte>, n: nat)
    requires n <= |s| && n <= |t| && forall i :: 0 <= i < n ==> s[i] == t[i]
    ensures Start(s, n) == Start(t, n) && Lines(s, n) == Lines(t, n)
  {
    if n > 0 {
      SameBytes(s, t, n - 1);
    }
  }

  // ---------------------------------------------------------------- what the lists mean

  function Segment(s: seq<byte>, l: Line): seq<byte>
    requires l.offset + l.len <= |s|
  {
    s[l.offset..l.offset + l.len]
  }

  /** The lines lie in the first `n` bytes. */
  predicate Within(ls: seq<Line>, n: nat) {
    forall i :: 0 <= i < |ls| ==> ls[i].offset + ls[i].len <= n
  }

  /** The first `m` lines, each with its line break. */
  function Joined(s: seq<byte>, ls: seq<Line>, m: nat): seq<byte>
    requires m <= |ls| && Within(ls, |s|)
  {
    if m == 0 then [] else Joined(s, ls, m - 1) + Segment(s, ls[m - 1]) + [NEWLINE]
  }

  lemma {:induction false} JoinedFront(s: seq<byte>, ls: seq<Line>, l: Line, m: nat)
    requires m <= |ls| && Within(ls + [l], |s|)
    ensures Within(ls, |s|) && Joined(s, ls + [l], m) == Joined(s, ls, m)
  {
    assert forall i :: 0 <= i < |ls| ==> (ls + [l])[i] == ls[i];
    if m > 0 {
      JoinedFront(s, ls, l, m - 1);
    }
  }

  lemma {:induction false} LinesWithin(s: seq<byte>, n: nat)
    requires n <= |s|
    ensures Within(Lines(s, n), n)
  {
    if n > 0 {
      LinesWithin(s, n - 1);
    }
  }

  /** The lines found so far, joined, and the line under way are the bytes scanned so far. */
  lemma {:induction false} JoinedLines(s: seq<byte>, n: nat)
    requires n <= |s|
    ensures Within(Lines(s, n), |s|)
    ensures Joined(s, Lines(s, n), |Lines(s, n)|) + s[Start(s, n)..n] == s[..n]
  {
    if n > 0 {
      var m := n - 1;
      JoinedLines(s, m);
      LinesCases(s, m, n, Start(s, m));
      JoinedStep(s, m, n, Start(s, m), Lines(s, m));
    } else {
      assert s[0..0] == s[..0] == [];
    }
  }

  /** One more byte, which ends the line that began at `k` or belongs to it. */
  lemma JoinedStep(s: seq<byte>, m: nat, n: nat, k: nat, ls: seq<Line>)
    requires k <= m < n == m + 1 <= |s| && Within(ls, |s|) && Joined(s, ls, |ls|) + s[k..m] == s[..m]
    ensures s[m] == NEWLINE ==>
      var more := ls + [Line(k, m - k)];
      Within(more, |s|) && Joined(s, more, |more|) + s[n..n] == s[..n]
    ensures s[m] != NEWLINE ==> Joined(s, ls, |ls|) + s[k..n] == s[..n]
  {
    JoinedMore(s, ls, Line(k, m - k), k, m);
    JoinedBytes(s, m, k, Joined(s, ls, |ls|));
  }

  lemma LinesCases(s: seq<byte>, m: nat, n: nat, k: nat)
    requires m < n == m + 1 <= |s| && k == Start(s, m)
    ensures s[m] == NEWLINE ==> Lines(s, n) == Lines(s, m) + [Line(k, m - k)] && Start(s, n) == n
    ensures s[m] != NEWLINE ==> Lines(s, n) == Lines(s, m) && Start(s, n) == k
  {
  }

  lemma JoinedBytes(s: seq<byte>, n: nat, k: nat, j: seq<byte>)
    requires k <= n < |s| && j + s[k..n] == s[..n]
    ensures j + s[k..n + 1] == s[..n + 1] && j + s[k..n] + [s[n]] + s[n + 1..n + 1] == s[..n + 1]
  {
    OneByteMore(s, 0, n);
    OneByteMore(s, k, n);
    BytesJoin(j, s[k..n], [s[n]]);
  }

  lemma BytesJoin(a: seq<byte>, b: seq<byte>, c: seq<byte>)
    ensures a + (b + c) == (a + b) + c && (a + b) + c + [] == (a + b) + c
  {
  }

  lemma OneByteMore(s: seq<byte>, k: nat, n: nat)
    requires k <= n < |s|
    ensures s[k..n + 1] == s[k..n] + [s[n]] && s[n + 1..n + 1] == [] && s[..n] == s[0..n] && s[..n + 1] == s[0..n + 1]
  {
  }

  lemma JoinedMore(s: seq<byte>, ls: seq<Line>, l: Line, from: nat, to: nat)
    requires Within(ls, |s|) && from <= to <= |s| && l == Line(from, to - from)
    ensures Within(ls + [l], |s|)
    ensures Joined(s, ls + [l], |ls| + 1) == Joined(s, ls, |ls|) + s[from..to] + [NEWLINE]
  {
    JoinedFront(s, ls, l, |ls|);
    assert (ls + [l])[|ls|] == l;
  }

  /** Joining the lines of the chunked scan with line breaks, and without one behind the last,
      rebuilds the file. */
  lemma JoinRebuilds(s: seq<byte>)
    ensures var ls := AllLines(s);
            && Within(ls, |s|)
            && Joined(s, ls, |ls| - 1) + Segment(s, ls[|ls| - 1]) == s
  {
    hide Lines, Start, Joined;
    JoinedLines(s, |s|);
    JoinedFront(s, Lines(s, |s|), Line(Start(s, |s|), |s| - Start(s, |s|)), |Lines(s, |s|)|);
    assert s[..|s|] == s;
  }

  lemma {:induction false} NoBreakSinceStart(s: seq<byte>, n: nat)
    requires n <= |s|
    ensures NEWLINE !in s[Start(s, n)..n]
  {
    if n > 0 && s[n - 1] != NEWLINE {
      NoBreakSinceStart(s, n - 1);
      assert s[Start(s, n)..n] == s[Start(s, n)..n - 1] + [s[n - 1]];
    }
  }

  /** No line contains a line break. */
  lemma {:induction false} LinesAreUnbroken(s: seq<byte>, n: nat)
    requires n <= |s|
    ensures Within(Lines(s, n), n)
    ensures forall i :: 0 <= i < |Lines(s, n)| ==> NEWLINE !in Segment(s, Lines(s, n)[i])
  {
    if n > 0 {
      LinesAreUnbroken(s, n - 1);
      NoBreakSinceStart(s, n - 1);
    }
  }
}
