/** What `handle_state_changes` must say, and that it says that and nothing else. */
module Duties {
  import opened Basics
  import opened Connections
  import opened Protocol
  import opened Identifiers

  /** All that is to be said about a connection: NEW if nobody told the peer; CLOSE if its socket is
      closed and both buffers are empty; otherwise the end of each direction that ended at the
      socket, was not given up before, and has an empty buffer. */
  function Owed(c: Conn): seq<byte> {
    (if c.state.isNew then [CMD_NEW] else [])
    + if ShouldCloseConnection(c) then [CMD_CLOSE]
      else (if ShouldCloseIn(c) then [CMD_CLOSE_SRC_TO_DST] else [])
           + (if ShouldCloseOut(c) then [CMD_CLOSE_DST_TO_SRC] else [])
  }

  /** The same for identifiers 1 to `n`, in their order. */
  function OwedUpTo(cs: seq<Conn>, index: map<int, nat>, n: nat): seq<Command>
    requires forall k :: k in index ==> index[k] < |cs|
  {
    if n == 0 then []
    else OwedUpTo(cs, index, n - 1) + if n in index then Said(Owed(cs[index[n]]), n) else []
  }

  function Front<T>(s: seq<T>, n: nat): seq<T> {
    if n <= |s| then s[..n] else s
  }

  lemma FrontIn<T>(s: seq<T>, n: nat, x: T)
    ensures x in Front(s, n) ==> x in s
  {
  }

  /** As much is said as there is room for, and the queue is full exactly when that is not all. */
  lemma ReactSaysOwed(c: Conn, room: nat)
    ensures React(c, room).said == Front(Owed(c), room)
    ensures React(c, room).again <==> |Owed(c)| > room
    ensures React(c, room).conn.id == c.id
  {
    var g := Greet(c, room);
    assert ShouldCloseConnection(g.conn) == ShouldCloseConnection(c);
    assert ShouldCloseIn(g.conn) == ShouldCloseIn(c) && ShouldCloseOut(g.conn) == ShouldCloseOut(c);
  }

  lemma SaidFront(bytes: seq<byte>, id: int, n: nat)
    ensures Said(Front(bytes, n), id) == Front(Said(bytes, id), n)
  {
  }

  lemma FrontConcat<T>(a: seq<T>, b: seq<T>, n: nat, m: nat)
    requires |a| <= n && m == n - |a|
    ensures a + Front(b, m) == Front(a + b, n)
  {
  }

  lemma FrontOfFull<T>(a: seq<T>, b: seq<T>, n: nat)
    requires |a| > n
    ensures Front(a + b, n) == Front(a, n)
  {
  }

  /** The steps of the loop for other identifiers leave a connection alone. */
  lemma StepLeavesOthers(h: Handled, accepting: bool, i: int)
    requires h.Valid() && IndexOk(h.conns, h.index)
    ensures
      var h' := HandleStep(h, accepting, i);
      && (forall k :: k in h.index && k != i ==>
            k in h'.index && h'.index[k] == h.index[k] && h'.conns[h.index[k]] == h.conns[h.index[k]])
      && (forall k :: k in h'.index ==> k in h.index && h'.index[k] == h.index[k])
  {
    hide React;
    forall k | k in h.index && k != i && i in h.index
      ensures h.index[k] != h.index[i]
    {
      assert Holds(h.conns[h.index[k]], k) && Holds(h.conns[h.index[i]], i);
    }
  }

  /** Connections whose turn is still to come are as they were. */
  lemma {:induction false} LaterUntouched(h: Handled, accepting: bool, n: nat, k: int)
    requires h.Valid() && IndexOk(h.conns, h.index) && k > n
    ensures
      var h' := HandleUpTo(h, accepting, n);
      (k in h'.index <==> k in h.index)
      && (k in h.index ==> h'.index[k] == h.index[k] && h'.conns[h.index[k]] == h.conns[h.index[k]])
  {
    hide HandleStep;
    if n > 0 {
      LaterUntouched(h, accepting, n - 1, k);
      IndexStays(h, accepting, n - 1);
      StepLeavesOthers(HandleUpTo(h, accepting, n - 1), accepting, n);
    }
  }

  lemma {:induction false} IndexStays(h: Handled, accepting: bool, n: nat)
    requires h.Valid() && IndexOk(h.conns, h.index)
    ensures IndexOk(HandleUpTo(h, accepting, n).conns, HandleUpTo(h, accepting, n).index)
  {
    hide HandleStep;
    if n > 0 {
      IndexStays(h, accepting, n - 1);
      StepKeepsIndex(HandleUpTo(h, accepting, n - 1), accepting, n);
    }
  }

  lemma StepKeepsIndex(h: Handled, accepting: bool, i: int)
    requires h.Valid() && IndexOk(h.conns, h.index)
    ensures IndexOk(HandleStep(h, accepting, i).conns, HandleStep(h, accepting, i).index)
  {
    hide React;
    var h' := HandleStep(h, accepting, i);
    StepLeavesOthers(h, accepting, i);
    if !h.again && i in h.index {
      GoneIsDeleted(h.conns[h.index[i]], h.room - |h.said|);
    }
  }

  lemma GoneIsDeleted(c: Conn, room: nat)
    ensures var r := React(c, room); r.conn.id == c.id && (r.conn.state.delete <==> c.state.delete || r.gone)
  {
  }

  lemma StepStaysFilled(h: Handled, accepting: bool, i: int)
    requires h.Valid() && IndexOk(h.conns, h.index) && Filled(h.conns, h.index, |h.conns|) && 1 <= i
    ensures var h' := HandleStep(h, accepting, i); Filled(h'.conns, h'.index, |h'.conns|)
  {
    hide React;
    if !h.again && i in h.index {
      GoneIsDeleted(h.conns[h.index[i]], h.room - |h.said|);
    }
  }

  /** `handle_state_changes` takes nobody out of the table but those it announced as gone. */
  lemma {:induction false} HandleStaysFilled(h: Handled, accepting: bool, n: nat)
    requires h.Valid() && IndexOk(h.conns, h.index) && Filled(h.conns, h.index, |h.conns|)
    ensures var h' := HandleUpTo(h, accepting, n); Filled(h'.conns, h'.index, |h'.conns|)
  {
    hide HandleStep, Filled;
    if n > 0 {
      HandleStaysFilled(h, accepting, n - 1);
      IndexStays(h, accepting, n - 1);
      StepStaysFilled(HandleUpTo(h, accepting, n - 1), accepting, n);
    }
  }

  lemma StepSaysOwed(h: Handled, accepting: bool, n: nat, owed: seq<Command>)
    requires h.Valid() && n > 0 && IndexOk(h.conns, h.index)
    requires h.said == Front(owed, h.room) && (h.again <==> |owed| > h.room)
    ensures
      var h' := HandleStep(h, accepting, n);
      var all := owed + if n in h.index then Said(Owed(h.conns[h.index[n]]), n) else [];
      h'.room == h.room && h'.said == Front(all, h.room) && (h'.again <==> |all| > h.room)
  {
    hide React, Owed;
    if n !in h.index {
      assert owed + [] == owed;
    } else {
      var c := h.conns[h.index[n]];
      var more := Said(Owed(c), n);
      if h.again {
        FrontOfFull(owed, more, h.room);
      } else {
        var left: nat := h.room - |h.said|;
        assert h.said == owed;
        ReactSaysOwed(c, left);
        SaidFront(Owed(c), n, left);
        FrontConcat(owed, more, h.room, left);
      }
    }
  }

  /** In the order of the identifiers everything that is owed is said, as far as the queue has room:
      every connection that is closed and drained has its CLOSE, every direction that is closed and
      drained its half-close, every new one its NEW, and nothing else is said. The loop stops
      exactly when the room does not suffice. */
  lemma {:induction false} HandleSaysOwed(h: Handled, accepting: bool, n: nat)
    requires h.Valid() && IndexOk(h.conns, h.index) && h.said == [] && !h.again
    ensures
      var h' := HandleUpTo(h, accepting, n);
      var owed := OwedUpTo(h.conns, h.index, n);
      h'.room == h.room && h'.said == Front(owed, h.room) && (h'.again <==> |owed| > h.room)
  {
    hide HandleStep, Owed;
    if n > 0 {
      HandleSaysOwed(h, accepting, n - 1);
      var g := HandleUpTo(h, accepting, n - 1);
      IndexStays(h, accepting, n - 1);
      LaterUntouched(h, accepting, n - 1, n);
      StepSaysOwed(g, accepting, n, OwedUpTo(h.conns, h.index, n - 1));
    }
  }

  /** A command about `k` is owed by the whole loop exactly when the connection of `k` owes it. */
  lemma {:induction false} OwedIff(cs: seq<Conn>, index: map<int, nat>, n: nat, k: byte, cmd: byte)
    requires IndexOk(cs, index) && n <= 255
    ensures Command(cmd, k) in OwedUpTo(cs, index, n)
            <==> 1 <= k as int <= n && k as int in index && cmd in Owed(cs[index[k]])
  {
    hide Owed;
    if n > 0 {
      OwedIff(cs, index, n - 1, k, cmd);
      if n in index {
        SaidIff(Owed(cs[index[n]]), n, k, cmd);
      }
    }
  }

  lemma SaidIff(bytes: seq<byte>, id: int, k: byte, cmd: byte)
    requires 0 <= id < 256
    ensures Command(cmd, k) in Said(bytes, id) <==> id == k as int && cmd in bytes
  {
    var s := Said(bytes, id);
    if cmd in bytes && id == k as int {
      var i :| 0 <= i < |bytes| && bytes[i] == cmd;
      assert s[i] == Command(cmd, k);
    }
  }

  /** After an unblocked `handle_state_changes`: for a connection in its table, CLOSE was said if and
      only if its socket is closed and both buffers are empty; that its source ended was said, by
      CLOSE_SRC_TO_DST or CLOSE, if and only if its in_buf is empty, for a source that its socket
      ended; and NEW if and only if it is new. */
  lemma UnblockedSaysExactly(h: Handled, accepting: bool, k: byte)
    requires h.Valid() && IndexOk(h.conns, h.index) && h.said == [] && !h.again && k != 0 && k as int in h.index
    requires !HandleUpTo(h, accepting, MAX_STACK_SIZE).again
    ensures
      var said := HandleUpTo(h, accepting, MAX_STACK_SIZE).said;
      var c := h.conns[h.index[k]];
      && (Command(CMD_NEW, k) in said <==> c.state.isNew)
      && (Command(CMD_CLOSE, k) in said
          <==> c.state.closed && c.inb.length == 0 && c.outb.length == 0)
      && (c.inState.closed && !c.inState.delete ==>
            (Command(CMD_CLOSE_SRC_TO_DST, k) in said || Command(CMD_CLOSE, k) in said
             <==> c.inb.length == 0))
      && (c.outState.closed && !c.outState.delete ==>
            (Command(CMD_CLOSE_DST_TO_SRC, k) in said || Command(CMD_CLOSE, k) in said
             <==> c.outb.length == 0))
  {
    hide OwedUpTo, HandleUpTo, Owed;
    var n := MAX_STACK_SIZE;
    HandleSaysOwed(h, accepting, n);
    var c := h.conns[h.index[k]];
    OwedIff(h.conns, h.index, n, k, CMD_NEW);
    OwedIff(h.conns, h.index, n, k, CMD_CLOSE);
    OwedIff(h.conns, h.index, n, k, CMD_CLOSE_SRC_TO_DST);
    OwedIff(h.conns, h.index, n, k, CMD_CLOSE_DST_TO_SRC);
    OwedCases(c);
  }

  lemma OwedCases(c: Conn)
    ensures CMD_NEW in Owed(c) <==> c.state.isNew
    ensures CMD_CLOSE in Owed(c) <==> ShouldCloseConnection(c)
    ensures CMD_CLOSE_SRC_TO_DST in Owed(c) <==> !ShouldCloseConnection(c) && ShouldCloseIn(c)
    ensures CMD_CLOSE_DST_TO_SRC in Owed(c) <==> !ShouldCloseConnection(c) && ShouldCloseOut(c)
  {
  }

  // ---------------------------------------------------------------- what saying it does

  /** Behind the words `said` about a connection `c`, `d` differs from it in what they mark: it is greeted
      and waits for the acknowledgement, a direction is given up, or all of it. */
  predicate Marked(c: Conn, d: Conn, greeted: bool, close: bool, inEnd: bool, outEnd: bool) {
    && d.id == c.id && d.inb == c.inb && d.outb == c.outb
    && d.state == c.state.(isNew := c.state.isNew && !greeted, stopped := c.state.stopped || greeted,
                           delete := c.state.delete || close)
    && d.inState == c.inState.(delete := c.inState.delete || inEnd)
    && d.outState == c.outState.(delete := c.outState.delete || outEnd)
  }

  lemma GreetMarks(c: Conn, room: nat)
    ensures
      var r := Greet(c, room);
      && Marked(c, r.conn, CMD_NEW in r.said, false, false, false)
      && (r.said == [] || r.said == [CMD_NEW]) && (r.again ==> r.said == [])
  {
  }

  lemma AnnounceMarks(c: Conn, room: nat)
    ensures
      var r := Announce(c, room);
      && Marked(c, r.conn, false, CMD_CLOSE in r.said, CMD_CLOSE_SRC_TO_DST in r.said, CMD_CLOSE_DST_TO_SRC in r.said)
      && (r.gone <==> CMD_CLOSE in r.said) && CMD_NEW !in r.said
  {
  }

  lemma MarkedOn(c: Conn, d: Conn, e: Conn, greeted: bool, close: bool, inEnd: bool, outEnd: bool)
    requires Marked(c, d, greeted, false, false, false) && Marked(d, e, false, close, inEnd, outEnd)
    ensures Marked(c, e, greeted, close, inEnd, outEnd)
  {
  }

  lemma InJoined<T>(a: seq<T>, b: seq<T>, x: T)
    ensures x in a + b <==> x in a || x in b
  {
  }

  lemma ReactMarks(c: Conn, room: nat)
    ensures
      var r := React(c, room);
      && Marked(c, r.conn, CMD_NEW in r.said, CMD_CLOSE in r.said, CMD_CLOSE_SRC_TO_DST in r.said,
                CMD_CLOSE_DST_TO_SRC in r.said)
      && (r.gone <==> CMD_CLOSE in r.said)
  {
    hide Greet, Announce, Marked;
    GreetMarks(c, room);
    var g := Greet(c, room);
    if !g.again {
      var a := Announce(g.conn, room - |g.said|);
      AnnounceMarks(g.conn, room - |g.said|);
      MarkedOn(c, g.conn, a.conn, CMD_NEW in g.said, CMD_CLOSE in a.said, CMD_CLOSE_SRC_TO_DST in a.said,
               CMD_CLOSE_DST_TO_SRC in a.said);
      InJoined(g.said, a.said, CMD_NEW);
      InJoined(g.said, a.said, CMD_CLOSE);
      InJoined(g.said, a.said, CMD_CLOSE_SRC_TO_DST);
      InJoined(g.said, a.said, CMD_CLOSE_DST_TO_SRC);
    }
  }

  lemma SaidAbout(bytes: seq<byte>, id: int, cmd: byte, k: byte)
    requires 0 <= id <= 255
    ensures Command(cmd, k) in Said(bytes, id) <==> cmd in bytes && k as int == id
  {
    var said := Said(bytes, id);
    if cmd in bytes && k as int == id {
      var i :| 0 <= i < |bytes| && bytes[i] == cmd;
      assert said[i] == Command(cmd, k);
    }
  }

  /** The words of `said` about connection `k` mark it. */
  predicate MarkedBy(c: Conn, d: Conn, said: seq<Command>, k: byte) {
    Marked(c, d, Command(CMD_NEW, k) in said, Command(CMD_CLOSE, k) in said,
           Command(CMD_CLOSE_SRC_TO_DST, k) in said, Command(CMD_CLOSE_DST_TO_SRC, k) in said)
  }

  /** So far the loop has marked the connection of `k`, which was at place `p`, and nothing is said about
      those whose turn is to come. */
  predicate MarkedSoFar(h: Handled, h': Handled, n: nat, p: nat, k: byte)
    requires p < |h.conns| && |h'.conns| == |h.conns|
  {
    && MarkedBy(h.conns[p], h'.conns[p], h'.said, k)
    && (k as int in h'.index <==> Command(CMD_CLOSE, k) !in h'.said)
    && (k as int > n ==> forall cmd :: Command(cmd, k) !in h'.said)
  }

  lemma StepMarks(h: Handled, g: Handled, accepting: bool, n: nat, p: nat, k: byte)
    requires h.Valid() && g.Valid() && IndexOk(g.conns, g.index) && 1 <= n <= 255 && p < |h.conns| == |g.conns|
    requires k != 0 && h.conns[p].id == k as int && MarkedSoFar(h, g, n - 1, p, k)
    requires k as int in g.index ==> g.index[k] == p
    ensures MarkedSoFar(h, HandleStep(g, accepting, n), n, p, k)
    ensures k as int in HandleStep(g, accepting, n).index ==> HandleStep(g, accepting, n).index[k] == p
  {
    hide React, Said;
    if !g.again && n in g.index {
      var c := g.conns[g.index[n]];
      var r := React(c, g.room - |g.said|);
      ReactMarks(c, g.room - |g.said|);
      forall cmd
        ensures Command(cmd, k) in Said(r.said, c.id) <==> cmd in r.said && k as int == n
      {
        SaidAbout(r.said, n, cmd, k);
      }
    }
  }

  /** What the loop says about a connection of its table marks it: NEW means that it is greeted and waits
      for the acknowledgement, CLOSE that it is deleted and out of the table, a half-close that its
      direction is given up. Nothing else about it changes. */
  lemma {:induction false} HandleMarks(h: Handled, accepting: bool, n: nat, k: byte)
    requires h.Valid() && IndexOk(h.conns, h.index) && h.said == [] && n <= MAX_STACK_SIZE
    requires k != 0 && k as int in h.index
    ensures MarkedSoFar(h, HandleUpTo(h, accepting, n), n, h.index[k], k)
    ensures var h' := HandleUpTo(h, accepting, n); k as int in h'.index ==> h'.index[k] == h.index[k]
  {
    hide HandleStep, MarkedSoFar;
    if n == 0 {
      NothingMarked(h, h.index[k], k);
    } else {
      HandleMarks(h, accepting, n - 1, k);
      IndexStays(h, accepting, n - 1);
      StepMarks(h, HandleUpTo(h, accepting, n - 1), accepting, n, h.index[k], k);
    }
  }

  lemma NothingMarked(h: Handled, p: nat, k: byte)
    requires p < |h.conns| && h.said == [] && k as int in h.index
    ensures MarkedSoFar(h, h, 0, p, k)
  {
  }

  /** The side that gives out no identifiers takes none back. */
  lemma {:induction false} ConnectingReleasesNothing(h: Handled, n: nat)
    requires h.Valid()
    ensures HandleUpTo(h, false, n).free == h.free
  {
    hide React;
    if n > 0 {
      ConnectingReleasesNothing(h, n - 1);
    }
  }

  /** Connections outside the table, and the tunnel's, stay as they are. */
  lemma {:induction false} HandleLeaves(h: Handled, accepting: bool, n: nat, p: nat)
    requires h.Valid() && IndexOk(h.conns, h.index) && p < |h.conns|
    requires h.conns[p].id !in h.index || h.conns[p].id == 0
    ensures
      var h' := HandleUpTo(h, accepting, n);
      h'.conns[p] == h.conns[p] && forall k :: k in h'.index ==> k in h.index && h'.index[k] == h.index[k]
  {
    hide HandleStep;
    if n > 0 {
      HandleLeaves(h, accepting, n - 1, p);
      var g := HandleUpTo(h, accepting, n - 1);
      IndexStays(h, accepting, n - 1);
      StepLeavesOthers(g, accepting, n);
      StepLeavesPlace(g, accepting, n, p);
    }
  }

  lemma StepLeavesPlace(h: Handled, accepting: bool, i: int, p: nat)
    requires h.Valid() && IndexOk(h.conns, h.index) && p < |h.conns| && (i in h.index ==> h.conns[p].id != i)
    ensures HandleStep(h, accepting, i).conns[p] == h.conns[p]
  {
    hide React;
  }
}
