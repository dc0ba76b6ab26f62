/** The code of controller.c: a stack of identifiers in an array, loops over the connections that
    change their fields in place. */
module Controllers {
  import opened Basics
  import opened Ring
  import opened Connections
  import opened CommandQueues
  import opened Protocol

  class IdStack {
    const stack: array<int>
    var cnt: nat

    ghost predicate Valid()
      reads this
    {
      stack.Length == MAX_STACK_SIZE && cnt <= MAX_STACK_SIZE
    }

    /** The free identifiers, the next one last. */
    ghost function Free(): seq<int>
      requires Valid()
      reads this, stack
    {
      stack[..cnt]
    }

    /** `id_stack_init`. */
    constructor ()
      ensures Valid() && fresh(stack) && Free() == InitialIds()
    {
      stack := new int[MAX_STACK_SIZE];
      cnt := MAX_STACK_SIZE;
      new;
      for i := 0 to MAX_STACK_SIZE
        invariant cnt == MAX_STACK_SIZE && stack[..i] == InitialIds()[..i]
      {
        stack[i] := MAX_STACK_SIZE - i;
        assert InitialIds()[..i] + [MAX_STACK_SIZE - i] == InitialIds()[..i + 1];
      }
      assert InitialIds()[..MAX_STACK_SIZE] == InitialIds();
    }

    method Push(id: int)
      requires Valid()
      modifies this`cnt, stack
      ensures Valid() && Free() == Protocol.Push(old(Free()), id)
    {
      if cnt == MAX_STACK_SIZE {
        return;
      }
      stack[cnt] := id;
      cnt := cnt + 1;
    }

    method Pop() returns (id: int)
      requires Valid()
      modifies this`cnt
      ensures Valid()
      ensures if old(Free()) == [] then id == -1 && Free() == []
              else id == old(Free())[old(cnt) - 1] && Free() == old(Free())[..old(cnt) - 1]
    {
      if cnt == 0 {
        return -1;
      }
      cnt := cnt - 1;
      id := stack[cnt];
    }
  }

  /** The connections `cs`, all different, show `conns`. */
  ghost predicate Shows(cs: seq<Connection>, conns: seq<Conn>)
    reads set i | 0 <= i < |cs| :: cs[i]
    reads set i | 0 <= i < |cs| :: cs[i].inBuf
    reads set i | 0 <= i < |cs| :: cs[i].inBuf.buffer
    reads set i | 0 <= i < |cs| :: cs[i].outBuf
    reads set i | 0 <= i < |cs| :: cs[i].outBuf.buffer
  {
    && |cs| == |conns| && (forall i, j :: 0 <= i < j < |cs| ==> cs[i] != cs[j])
    && (forall i :: 0 <= i < |cs| ==> cs[i].View() == conns[i])
  }

  /** The table of the pump holds the connections that `index` leads to, and nothing else. */
  ghost predicate Indexes(table: array<Connection?>, cs: seq<Connection>, index: map<int, nat>)
    reads table
  {
    && table.Length == MAX_CONNECTIONS
    && (forall k :: k in index ==> 0 <= k < MAX_CONNECTIONS && index[k] < |cs|)
    && (forall k :: 0 <= k < MAX_CONNECTIONS ==>
          table[k] == if k in index then cs[index[k]] else null)
  }

  /** A connection without identifier gets one from the stack, if there is any. */
  method NameAt(stack: IdStack, i: nat, ghost cs: seq<Connection>, c: Connection, ghost s: Sorted)
    returns (named: bool)
    requires stack.Valid() && i < |cs| && cs[i] == c && Shows(cs, s.conns) && stack.Free() == s.free
    requires forall id :: id in s.free ==> 0 <= id < MAX_CONNECTIONS
    requires c.id != MAX_CONNECTIONS && forall k :: k in s.index ==> s.index[k] < |s.conns|
    modifies stack`cnt, c`id
    ensures var s' := SortStep(s, i);
            && stack.Valid() && Shows(cs, s'.conns) && stack.Free() == s'.free
            && s'.index == (if named then s.index[c.id := i] else s.index)
            && (named ==> 0 <= c.id < MAX_CONNECTIONS)
  {
    assert c.View() == s.conns[i];
    if c.id > MAX_CONNECTIONS || c.id < 0 {
      if stack.cnt == 0 {
        return false;
      }
      var id := stack.Pop();
      assert id in s.free;
      c.id := id;
    }
    return true;
  }

  /** The body of the loop of `sort_connections`. */
  method SortAt(stack: IdStack, table: array<Connection?>, i: nat, ghost cs: seq<Connection>,
                c: Connection, ghost s: Sorted)
    requires stack.Valid() && i < |cs| && cs[i] == c && Shows(cs, s.conns)
    requires stack.Free() == s.free && Indexes(table, cs, s.index)
    requires forall id :: id in s.free ==> 0 <= id < MAX_CONNECTIONS
    requires c.id != MAX_CONNECTIONS && forall k :: k in s.index ==> s.index[k] < |s.conns|
    modifies stack`cnt, table, c`id
    ensures var s' := SortStep(s, i);
            stack.Valid() && Shows(cs, s'.conns) && stack.Free() == s'.free && Indexes(table, cs, s'.index)
  {
    hide Shows, SortStep, IdStack.Free;
    var named := NameAt(stack, i, cs, c, s);
    if named {
      table[c.id] := c;
    }
  }

  lemma {:induction false} SortFrees(conns: seq<Conn>, free: seq<int>, n: nat)
    requires n <= |conns|
    ensures forall id :: id in SortUpTo(conns, free, n).free ==> id in free
    ensures forall i :: n <= i < |conns| ==> SortUpTo(conns, free, n).conns[i] == conns[i]
  {
    if n > 0 {
      SortFrees(conns, free, n - 1);
    }
  }

  /** `sort_connections`. The code takes 256 for a valid identifier and writes behind the table for
      it; `strayed` says that there is one, and the model stops there. */
  method SortConnections(stack: IdStack, cs: seq<Connection>, table: array<Connection?>, ghost conns: seq<Conn>)
    returns (strayed: bool)
    requires stack.Valid() && Shows(cs, conns) && table.Length == MAX_CONNECTIONS
    requires forall id :: id in stack.Free() ==> 0 <= id < MAX_CONNECTIONS
    modifies stack`cnt, table, set i | 0 <= i < |cs| :: cs[i]
    ensures strayed <==> exists i :: 0 <= i < |conns| && conns[i].id == MAX_CONNECTIONS
    ensures var s := Sort(conns, old(stack.Free()));
            !strayed ==>
              stack.Valid() && Shows(cs, s.conns) && stack.Free() == s.free && Indexes(table, cs, s.index)
  {
    hide Shows, SortStep;
    ghost var free := stack.Free();
    ShowsAll(cs, conns);
    forall k | 0 <= k < MAX_CONNECTIONS {
      table[k] := null;
    }
    var i := 0;
    while i < |cs|
      invariant 0 <= i <= |cs| == |conns| && stack.Valid()
      invariant Shows(cs, SortUpTo(conns, free, i).conns)
      invariant stack.Free() == SortUpTo(conns, free, i).free
      invariant Indexes(table, cs, SortUpTo(conns, free, i).index)
      invariant forall j :: 0 <= j < i ==> conns[j].id != MAX_CONNECTIONS
    {
      SortFrees(conns, free, i);
      ShowsAt(cs, SortUpTo(conns, free, i).conns, i);
      if cs[i].id == MAX_CONNECTIONS {
        return true;
      }
      SortAt(stack, table, i, cs, cs[i], SortUpTo(conns, free, i));
      i := i + 1;
    }
    return false;
  }

  lemma ShowsAll(cs: seq<Connection>, conns: seq<Conn>)
    requires Shows(cs, conns)
    ensures |cs| == |conns|
  {
  }

  lemma ShowsAt(cs: seq<Connection>, conns: seq<Conn>, i: nat)
    requires Shows(cs, conns) && i < |cs|
    ensures cs[i].id == conns[i].id
  {
    assert cs[i].View() == conns[i];
  }

  // ---------------------------------------------------------------- handle_state_changes

  /** The queue took the commands `said` about connection `id` behind `was`. */
  ghost predicate Queued(queue: CommandQueue, was: seq<Command>, said: seq<byte>, id: int)
    reads queue, queue.queue
  {
    queue.Valid() && queue.queue.Length == QUEUE_SIZE && queue.Waiting() == was + Said(said, id)
  }

  /** `send_command`. */
  method SendCommand(queue: CommandQueue, cmd: byte, id: int) returns (ok: bool)
    requires queue.Valid() && queue.queue.Length == QUEUE_SIZE
    modifies queue, queue.queue
    ensures ok == (|old(queue.Waiting())| < QUEUE_SIZE)
    ensures Queued(queue, old(queue.Waiting()), if ok then [cmd] else [], id)
  {
    ok := queue.Enqueue(Command(cmd, id % 256));
    assert Said([cmd], id) == [Command(cmd, id % 256)];
  }

  /** The two half-closes. */
  method AnnounceHalves(c: Connection, queue: CommandQueue) returns (again: bool)
    requires queue.Valid() && queue.queue.Length == QUEUE_SIZE && !ShouldCloseConnection(c.View())
    modifies c`state, c`inState, c`outState, queue, queue.queue
    ensures var r := Announce(old(c.View()), QUEUE_SIZE - |old(queue.Waiting())|);
            c.View() == r.conn && again == r.again && !r.gone
            && Queued(queue, old(queue.Waiting()), r.said, c.id)
  {
    hide Said;
    ghost var was := queue.Waiting();
    ghost var room := QUEUE_SIZE - |was|;
    ghost var v := c.View();
    NothingSaid(was, c.id);
    if !c.inState.delete && c.inBuf.length == 0 && c.inState.closed {
      var ok := SendCommand(queue, CMD_CLOSE_SRC_TO_DST, c.id);
      if !ok {
        return true;
      }
      c.inState := c.inState.(delete := true);
    }
    ghost var first := AnnounceIn(v, room);
    assert c.View() == first.conn && !first.again && Queued(queue, was, first.said, c.id);
    SaidLength(first.said, c.id);
    if !c.outState.delete && c.outBuf.length == 0 && c.outState.closed {
      var ok := SendCommand(queue, CMD_CLOSE_DST_TO_SRC, c.id);
      if !ok {
        SaidMore(was, first.said, [], c.id);
        return true;
      }
      SaidMore(was, first.said, [CMD_CLOSE_DST_TO_SRC], c.id);
      c.outState := c.outState.(delete := true);
    } else {
      SaidMore(was, first.said, [], c.id);
    }
    return false;
  }

  lemma NothingSaid(was: seq<Command>, id: int)
    ensures was + Said([], id) == was
  {
  }

  lemma SaidLength(a: seq<byte>, id: int)
    ensures |Said(a, id)| == |a|
  {
  }

  lemma SaidMore(was: seq<Command>, a: seq<byte>, b: seq<byte>, id: int)
    ensures was + Said(a, id) + Said(b, id) == was + Said(a + b, id)
    ensures b == [] ==> a + b == a
  {
  }

  /** What the loop of `handle_state_changes` does with one connection, but for the stack. */
  method ReactTo(c: Connection, queue: CommandQueue) returns (gone: bool, again: bool)
    requires queue.Valid() && queue.queue.Length == QUEUE_SIZE
    modifies c`state, c`inState, c`outState, queue, queue.queue
    ensures var r := React(old(c.View()), QUEUE_SIZE - |old(queue.Waiting())|);
            c.View() == r.conn && gone == r.gone && again == r.again
            && Queued(queue, old(queue.Waiting()), r.said, c.id)
  {
    hide Said, AnnounceIn, AnnounceOut;
    ghost var was := queue.Waiting();
    ghost var room := QUEUE_SIZE - |was|;
    NothingSaid(was, c.id);
    gone, again := false, false;
    ghost var g := Greet(c.View(), room);
    if c.state.isNew {
      var ok := SendCommand(queue, CMD_NEW, c.id);
      if !ok {
        return false, true;
      }
      c.state := c.state.(isNew := false, stopped := true);
    }
    assert c.View() == g.conn && !g.again && Queued(queue, was, g.said, c.id);
    SaidLength(g.said, c.id);
    ghost var a := Announce(c.View(), room - |g.said|);
    assert QUEUE_SIZE - |queue.Waiting()| == room - |g.said|;
    ghost var r := React(old(c.View()), room);
    assert r == Reaction(a.conn, g.said + a.said, a.gone, a.again);
    if c.inBuf.length == 0 && c.outBuf.length == 0 && c.state.closed {
      var ok := SendCommand(queue, CMD_CLOSE, c.id);
      if !ok {
        SaidMore(was, g.said, [], c.id);
        return false, true;
      }
      c.state := c.state.(delete := true);
      gone := true;
    } else {
      again := AnnounceHalves(c, queue);
    }
    SaidMore(was, g.said, a.said, c.id);
  }

  /** The body of the loop for identifier `i`. */
  method HandleAt(
      accepting: bool, stack: IdStack, queue: CommandQueue, table: array<Connection?>, i: nat,
      ghost cs: seq<Connection>, ghost h: Handled, ghost was: seq<Command>)
    returns (again: bool)
    requires stack.Valid() && queue.Valid() && queue.queue.Length == QUEUE_SIZE && 1 <= i < MAX_CONNECTIONS
    requires h.Valid() && !h.again && h.room == QUEUE_SIZE - |was|
    requires Shows(cs, h.conns) && stack.Free() == h.free && Indexes(table, cs, h.index)
    requires queue.Waiting() == was + h.said
    modifies stack`cnt, stack.stack, queue, queue.queue, table, set k | 0 <= k < |cs| :: cs[k]
    ensures var h' := HandleStep(h, accepting, i);
            && stack.Valid() && queue.Valid()
            && Shows(cs, h'.conns) && stack.Free() == h'.free && Indexes(table, cs, h'.index)
            && queue.Waiting() == was + h'.said && again == h'.again
  {
    hide React, Indexes, Said, IdStack.Free, Shows;
    var c := At(table, i, cs, h);
    if c == null {
      return false;
    }
    ghost var p := h.index[i];
    ghost var r := React(h.conns[p], h.room - |h.said|);
    assert QUEUE_SIZE - |queue.Waiting()| == h.room - |h.said|;
    ShowsAt(cs, h.conns, p);
    var gone;
    gone, again := ReactAt(c, p, queue, cs, h.conns);
    assert was + h.said + Said(r.said, c.id) == was + (h.said + Said(r.said, c.id));
    if gone {
      Release(accepting, stack, table, i, c, cs, h.index);
    }
  }

  /** `ReactTo` among all connections. */
  method ReactAt(c: Connection, ghost p: nat, queue: CommandQueue, ghost cs: seq<Connection>, ghost conns: seq<Conn>)
    returns (gone: bool, again: bool)
    requires queue.Valid() && queue.queue.Length == QUEUE_SIZE
    requires Shows(cs, conns) && p < |cs| && cs[p] == c
    modifies c`state, c`inState, c`outState, queue, queue.queue
    ensures var r := React(conns[p], QUEUE_SIZE - |old(queue.Waiting())|);
            && Shows(cs, conns[p := r.conn]) && gone == r.gone && again == r.again
            && Queued(queue, old(queue.Waiting()), r.said, c.id)
  {
    hide React;
    assert c.View() == conns[p];
    gone, again := ReactTo(c, queue);
  }

  method At(table: array<Connection?>, i: nat, ghost cs: seq<Connection>, ghost h: Handled) returns (c: Connection?)
    requires Indexes(table, cs, h.index) && 1 <= i < MAX_CONNECTIONS
    ensures c == null <==> i !in h.index
    ensures c != null ==> h.index[i] < |cs| && c == cs[h.index[i]]
  {
    c := table[i];
  }

  /** A connection that was announced as closed gives its identifier back and leaves the table. */
  method Release(accepting: bool, stack: IdStack, table: array<Connection?>, i: nat, c: Connection,
                 ghost cs: seq<Connection>, ghost index: map<int, nat>)
    requires stack.Valid() && Indexes(table, cs, index) && i < MAX_CONNECTIONS
    modifies stack`cnt, stack.stack, table
    ensures stack.Valid() && Indexes(table, cs, index - {i})
    ensures stack.Free() == if accepting then Protocol.Push(old(stack.Free()), c.id) else old(stack.Free())
  {
    if accepting {
      stack.Push(c.id);
    }
    table[i] := null;
  }

  datatype State = StateOk | StateAgain | StateShutdown

  lemma {:induction false} AgainStays(h: Handled, accepting: bool, n: nat, m: nat)
    requires h.Valid() && n <= m && HandleUpTo(h, accepting, n).again
    ensures HandleUpTo(h, accepting, m) == HandleUpTo(h, accepting, n)
    decreases m
  {
    if n < m {
      AgainStays(h, accepting, n, m - 1);
    }
  }

  /** `handle_state_changes`. */
  method HandleStateChanges(
      accepting: bool, stack: IdStack, queue: CommandQueue, table: array<Connection?>,
      ghost cs: seq<Connection>, ghost s: Sorted)
    returns (state: State)
    requires stack.Valid() && queue.Valid() && queue.queue.Length == QUEUE_SIZE
    requires Shows(cs, s.conns) && stack.Free() == s.free && Indexes(table, cs, s.index) && 0 in s.index
    modifies stack`cnt, stack.stack, queue, queue.queue, table, set k | 0 <= k < |cs| :: cs[k]
    ensures stack.Valid() && queue.Valid() && |s.conns| == |cs|
    ensures
      var was := old(queue.Waiting());
      var h := Handled(s.conns, s.free, s.index, [], QUEUE_SIZE - |was|, false);
      var d := if TunnelClosed(s.conns[s.index[0]]) then h else HandleUpTo(h, accepting, MAX_STACK_SIZE);
      && Shows(cs, d.conns) && stack.Free() == d.free && Indexes(table, cs, d.index)
      && queue.Waiting() == was + d.said
      && state == if TunnelClosed(s.conns[s.index[0]]) then StateShutdown
                  else if d.again then StateAgain else StateOk
  {
    hide HandleStep, Shows, Indexes;
    ghost var was := queue.Waiting();
    TableFacts(table, cs, s);
    ghost var h := Handled(s.conns, s.free, s.index, [], QUEUE_SIZE - |was|, false);
    assert was + [] == was;
    var tunnel := table[0];
    if tunnel.state.closed || tunnel.inState.closed || tunnel.outState.closed {
      return StateShutdown;
    }
    var i := 1;
    while i < 256
      invariant 1 <= i <= 256 && stack.Valid() && queue.Valid()
      invariant var d := HandleUpTo(h, accepting, i - 1);
                && !d.again && d.room == h.room
                && Shows(cs, d.conns) && stack.Free() == d.free && Indexes(table, cs, d.index)
                && queue.Waiting() == was + d.said
    {
      ghost var d := HandleUpTo(h, accepting, i - 1);
      RoomOfStep(d, accepting, i);
      var again := HandleAt(accepting, stack, queue, table, i, cs, d, was);
      if again {
        AgainStays(h, accepting, i, MAX_STACK_SIZE);
        return StateAgain;
      }
      i := i + 1;
    }
    return StateOk;
  }

  lemma RoomOfStep(h: Handled, accepting: bool, i: int)
    requires h.Valid()
    ensures HandleStep(h, accepting, i).room == h.room
  {
  }

  lemma TableFacts(table: array<Connection?>, cs: seq<Connection>, s: Sorted)
    requires Shows(cs, s.conns) && Indexes(table, cs, s.index) && 0 in s.index
    ensures table.Length == MAX_CONNECTIONS && table[0] != null && |cs| == |s.conns|
    ensures forall k :: k in s.index ==> s.index[k] < |s.conns|
    ensures var t := table[0]; var c := s.conns[s.index[0]];
            t.state == c.state && t.inState == c.inState && t.outState == c.outState
  {
    assert cs[s.index[0]].View() == s.conns[s.index[0]];
  }

  // ---------------------------------------------------------------- on_command

  /** What `on_command` does to the connection it found. */
  method ApplyTo(accepting: bool, stack: IdStack, c: Connection, cmd: byte, p: nat,
                 ghost cs: seq<Connection>, ghost k: Control)
    requires stack.Valid() && Shows(cs, k.conns) && p < |cs| && cs[p] == c && stack.Free() == k.free
    modifies stack`cnt, stack.stack, c`state, c`inState, c`outState
    ensures var k' := Apply(Shipped, accepting, k, cmd, p);
            stack.Valid() && Shows(cs, k'.conns) && stack.Free() == k'.free && k'.queue == k.queue
  {
    assert c.View() == k.conns[p];
    if cmd == CMD_CLOSE {
      c.state := c.state.(delete := true);
      if accepting {
        stack.Push(c.id);
      }
    } else if cmd == CMD_CLOSE_SRC_TO_DST {
      c.outState := c.outState.(delete := true);
    } else if cmd == CMD_CLOSE_DST_TO_SRC {
      c.inState := c.inState.(delete := true);
    } else if cmd == CMD_ACK {
      c.state := c.state.(stopped := false);
    }
  }

  /** The search that both halves of `on_command` begin with. */
  method FindConnection(cs: seq<Connection>, id: int, ghost conns: seq<Conn>) returns (p: Option<nat>)
    requires Shows(cs, conns)
    ensures p == Find(conns, id, 0)
  {
    var i := 0;
    while i < |cs|
      invariant 0 <= i <= |cs| && Find(conns, id, 0) == Find(conns, id, i)
    {
      assert cs[i].View() == conns[i];
      if cs[i].id == id {
        return Some(i);
      }
      i := i + 1;
    }
    return None;
  }

  /** `on_command`. It calls `cm_connect` where `connects` tells; `connected` is the answer, and
      `made` the value of the connection that is then added behind `cs`. */
  method OnCommand(
      accepting: bool, stack: IdStack, queue: CommandQueue, cs: seq<Connection>, cmd: Command,
      connected: bool, ghost made: Conn, ghost conns: seq<Conn>)
    returns (connects: bool)
    requires stack.Valid() && queue.Valid() && queue.queue.Length == QUEUE_SIZE && Shows(cs, conns)
    modifies stack`cnt, stack.stack, queue, queue.queue, set k | 0 <= k < |cs| :: cs[k]
    ensures stack.Valid() && queue.Valid() && |conns| == |cs|
    ensures
      var k := Control(conns, old(stack.Free()), old(queue.Waiting()));
      var k' := Protocol.OnCommand(Shipped, accepting, k, cmd, if connected then Some(made) else None);
      && |k'.conns| == |conns| + (if connects && connected then 1 else 0)
      && Shows(cs, k'.conns[..|cs|]) && stack.Free() == k'.free && queue.Waiting() == k'.queue
      && (connects && connected ==> k'.conns[|cs|] == made)
    ensures connects <==> cmd.cmd == CMD_NEW && Find(conns, cmd.arg, 0).None?
  {
    hide Find, Shows;
    ghost var k := Control(conns, stack.Free(), queue.Waiting());
    ShowsAll(cs, conns);
    assert conns[..|cs|] == conns && (conns + [made])[..|cs|] == conns;
    connects := false;
    var p := FindConnection(cs, cmd.arg, conns);
    if cmd.cmd == CMD_NEW {
      if p.Some? {
        return;
      }
      connects := true;
      if connected {
        var _ := queue.Enqueue(Command(CMD_ACK, cmd.arg));
      } else {
        var _ := queue.Enqueue(Command(CMD_CLOSE, cmd.arg));
      }
    } else if cmd.cmd == CMD_CLOSE || cmd.cmd == CMD_CLOSE_SRC_TO_DST || cmd.cmd == CMD_CLOSE_DST_TO_SRC
              || cmd.cmd == CMD_ACK {
      if p.Some? {
        ApplyTo(accepting, stack, cs[p.value], cmd.cmd, p.value, cs, k);
        ghost var k' := Apply(Shipped, accepting, k, cmd.cmd, p.value);
        assert k'.conns[..|cs|] == k'.conns;
      }
    }
  }
}
