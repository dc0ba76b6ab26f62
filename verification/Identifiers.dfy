/** The identifiers 1 to 255 are divided between the stack of free ones and the connections. */
module Identifiers {
  import opened Basics
  import opened Ring
  import opened Connections
  import opened Protocol

  /** Connection `c` holds identifier `k`. */
  predicate Holds(c: Conn, k: int) {
    c.id == k && !c.state.delete
  }

  /** How many of the first `n` connections hold identifier `k`. */
  function Holders(cs: seq<Conn>, n: nat, k: int): nat
    requires n <= |cs|
  {
    if n == 0 then 0 else Holders(cs, n - 1, k) + One(Holds(cs[n - 1], k))
  }

  /** Identifier `k` is free once or held once; 0 is the tunnel's, held once at most, -1 means none. */
  predicate Assigned(free: seq<int>, cs: seq<Conn>, k: int) {
    if k == -1 then Times(free, k) == 0
    else if k == 0 then Times(free, k) == 0 && Holders(cs, |cs|, k) <= 1
    else Times(free, k) + Holders(cs, |cs|, k) == One(1 <= k <= MAX_STACK_SIZE)
  }

  /** A connection without identifier is new and not marked for deletion. */
  predicate WellNamed(c: Conn) {
    -1 <= c.id <= MAX_STACK_SIZE && (c.id == -1 ==> c.state.isNew && !c.state.delete)
  }

  predicate AllNamed(cs: seq<Conn>) {
    forall i :: 0 <= i < |cs| ==> WellNamed(cs[i])
  }

  ghost predicate Partition(free: seq<int>, cs: seq<Conn>) {
    AllNamed(cs) && forall k :: Assigned(free, cs, k)
  }

  // ---------------------------------------------------------------- counting holders

  lemma {:induction false} HoldersUpdate(cs: seq<Conn>, i: nat, c: Conn, n: nat, k: int)
    requires i < |cs| && n <= |cs|
    ensures Holders(cs[i := c], n, k)
            == Holders(cs, n, k) + if i < n then One(Holds(c, k)) - One(Holds(cs[i], k)) else 0
  {
    hide Holds;
    if n > 0 {
      HoldersUpdate(cs, i, c, n - 1, k);
    }
  }

  lemma {:induction false} HolderCounts(cs: seq<Conn>, i: nat, n: nat, k: int)
    requires i < n <= |cs| && Holds(cs[i], k)
    ensures Holders(cs, n, k) >= 1
  {
    if i < n - 1 {
      HolderCounts(cs, i, n - 1, k);
    }
  }

  lemma {:induction false} TwoHoldersCount(cs: seq<Conn>, i: nat, j: nat, n: nat, k: int)
    requires i < j < n <= |cs| && Holds(cs[i], k) && Holds(cs[j], k)
    ensures Holders(cs, n, k) >= 2
  {
    if j < n - 1 {
      TwoHoldersCount(cs, i, j, n - 1, k);
    } else {
      HolderCounts(cs, i, n - 1, k);
    }
  }

  /** No identifier is held twice, and a held one is not free. */
  lemma OneHolder(free: seq<int>, cs: seq<Conn>, i: nat, j: nat, k: int)
    requires Assigned(free, cs, k) && k != -1
    requires i < |cs| && j < |cs| && Holds(cs[i], k) && Holds(cs[j], k)
    ensures i == j && Times(free, k) == 0
  {
    hide Holds, Times;
    HolderCounts(cs, i, |cs|, k);
    if i < j {
      TwoHoldersCount(cs, i, j, |cs|, k);
    } else if j < i {
      TwoHoldersCount(cs, j, i, |cs|, k);
    }
  }

  /** A free identifier is one of 1 to 255 and held by nobody. */
  lemma FreeIsUnheld(free: seq<int>, cs: seq<Conn>, i: nat)
    requires i < |free| && Assigned(free, cs, free[i])
    ensures 1 <= free[i] <= MAX_STACK_SIZE
    ensures Times(free, free[i]) == 1 && Holders(cs, |cs|, free[i]) == 0
  {
    assert free[i] in multiset(free);
  }

  // ---------------------------------------------------------------- the stack is large enough

  lemma {:induction false} InitialTimes(n: nat, k: int)
    requires n <= MAX_STACK_SIZE
    ensures Times(InitialIds()[..n], k) == One(MAX_STACK_SIZE - n < k <= MAX_STACK_SIZE)
  {
    if n > 0 {
      InitialTimes(n - 1, k);
      assert InitialIds()[..n] == InitialIds()[..n - 1] + [MAX_STACK_SIZE - (n - 1)];
    }
  }

  /** All identifiers are free at first. */
  lemma AllFreeAtFirst(k: int)
    ensures Times(InitialIds(), k) == One(1 <= k <= MAX_STACK_SIZE)
  {
    InitialTimes(MAX_STACK_SIZE, k);
    assert InitialIds()[..MAX_STACK_SIZE] == InitialIds();
  }

  lemma SmallerBag(a: multiset<int>, b: multiset<int>)
    requires forall k :: a[k] <= b[k]
    ensures |a| <= |b|
  {
    forall k | k in a
      ensures a[k] <= b[k]
    {
    }
    assert a <= b;
    assert b == a + (b - a);
  }

  lemma BagOfInitialIds(k: int)
    ensures multiset(InitialIds())[k] == One(1 <= k <= MAX_STACK_SIZE)
  {
    AllFreeAtFirst(k);
  }

  /** The stack never holds more than all identifiers. */
  lemma FreeFits(free: seq<int>, cs: seq<Conn>)
    requires Partition(free, cs)
    ensures |free| <= MAX_STACK_SIZE
  {
    forall k
      ensures multiset(free)[k] <= multiset(InitialIds())[k]
    {
      hide Holders, InitialIds, AllNamed;
      BagOfInitialIds(k);
      assert Assigned(free, cs, k);
      assert multiset(free)[k] == Times(free, k);
    }
    SmallerBag(multiset(free), multiset(InitialIds()));
  }

  /** While a connection holds an identifier, there is room on the stack for it. */
  lemma RoomToRelease(free: seq<int>, cs: seq<Conn>, i: nat)
    requires Partition(free, cs) && i < |cs| && 1 <= cs[i].id && !cs[i].state.delete
    ensures |free| < MAX_STACK_SIZE
  {
    var id := cs[i].id;
    var a := multiset(free) + multiset{id};
    forall k
      ensures a[k] <= multiset(InitialIds())[k]
    {
      hide Holders, InitialIds, AllNamed;
      BagOfInitialIds(k);
      assert Assigned(free, cs, k);
      HolderCounts(cs, i, |cs|, id);
      assert multiset(free)[k] == Times(free, k);
    }
    SmallerBag(a, multiset(InitialIds()));
    assert |a| == |free| + 1;
  }

  // ---------------------------------------------------------------- steps

  /** Connection `i` keeps its identifier or gives it back. */
  lemma ReleaseKeeps(free: seq<int>, cs: seq<Conn>, i: nat, c: Conn)
    requires Partition(free, cs) && i < |cs| && c.id == cs[i].id >= 0 && WellNamed(c)
    requires c.id == 0 ==> c.state.delete == cs[i].state.delete
    requires cs[i].state.delete ==> c.state.delete
    ensures Partition(if c.state.delete && !cs[i].state.delete then Push(free, c.id) else free, cs[i := c])
  {
    hide Times, Holders, WellNamed;
    var gone := c.state.delete && !cs[i].state.delete;
    if gone {
      assert c.id >= 1;
      RoomToRelease(free, cs, i);
    }
    var free' := if gone then Push(free, c.id) else free;
    var cs' := cs[i := c];
    forall k
      ensures Assigned(free', cs', k)
    {
      assert Assigned(free, cs, k);
      HoldersUpdate(cs, i, c, |cs|, k);
      TimesConcat(free, [c.id], k);
      TimesOne(c.id, k);
    }
  }

  /** Connection `i` gets the identifier on top of the stack. */
  lemma NamingKeeps(free: seq<int>, cs: seq<Conn>, i: nat)
    requires Partition(free, cs) && i < |cs| && cs[i].id == -1 && free != []
    ensures var id := free[|free| - 1];
            && 1 <= id <= MAX_STACK_SIZE && Holders(cs, |cs|, id) == 0
            && Partition(free[..|free| - 1], cs[i := SetId(cs[i], id)])
  {
    hide Times, Holders;
    var n := |free| - 1;
    var id := free[n];
    assert Assigned(free, cs, id);
    FreeIsUnheld(free, cs, n);
    var free', cs' := free[..n], cs[i := SetId(cs[i], id)];
    forall k
      ensures Assigned(free', cs', k)
    {
      assert Assigned(free, cs, k) && Assigned(free, cs, -1);
      HoldersUpdate(cs, i, SetId(cs[i], id), |cs|, k);
      TimesConcat(free[..n], [id], k);
      TimesOne(id, k);
      assert free[..n] + [id] == free;
      assert WellNamed(cs[i]);
    }
    assert WellNamed(SetId(cs[i], id)) by { assert WellNamed(cs[i]); }
  }

  /** The table of the pump: every entry leads to the connection that holds its identifier. */
  predicate IndexOk(cs: seq<Conn>, index: map<int, nat>) {
    forall k :: k in index ==> index[k] < |cs| && Holds(cs[index[k]], k) && 0 <= k <= MAX_STACK_SIZE
  }

  predicate NoneDeleted(cs: seq<Conn>) {
    forall i :: 0 <= i < |cs| ==> !cs[i].state.delete
  }

  /** `sort_connections` takes identifiers from the stack only for connections without one. */
  lemma {:induction false} SortKeeps(cs: seq<Conn>, free: seq<int>, n: nat)
    requires n <= |cs| && Partition(free, cs) && NoneDeleted(cs)
    ensures var s := SortUpTo(cs, free, n);
            Partition(s.free, s.conns) && NoneDeleted(s.conns) && IndexOk(s.conns, s.index)
  {
    if n > 0 {
      SortKeeps(cs, free, n - 1);
      SortStepKeeps(SortUpTo(cs, free, n - 1), n - 1);
    }
  }

  lemma SortStepKeeps(s: Sorted, i: nat)
    requires i < |s.conns|
    requires Partition(s.free, s.conns) && NoneDeleted(s.conns) && IndexOk(s.conns, s.index)
    ensures var s' := SortStep(s, i);
            && Partition(s'.free, s'.conns) && NoneDeleted(s'.conns) && IndexOk(s'.conns, s'.index)
  {
    hide Assigned;
    assert WellNamed(s.conns[i]);
    if NeedsId(s.conns[i]) && s.free != [] {
      NamingKeeps(s.free, s.conns, i);
    }
  }

  /** Every connection with an identifier is in the table, at its place; of those numbered 0 there
      should be one. */
  predicate Filled(cs: seq<Conn>, index: map<int, nat>, n: nat)
    requires n <= |cs|
  {
    forall i :: 0 <= i < n && cs[i].id >= 0 && !cs[i].state.delete ==>
      cs[i].id in index && index[cs[i].id] == i
  }

  lemma SortStepFills(s: Sorted, i: nat)
    requires i < |s.conns| && Filled(s.conns, s.index, i)
    requires Partition(s.free, s.conns) && NoneDeleted(s.conns) && IndexOk(s.conns, s.index)
    ensures var s' := SortStep(s, i); Filled(s'.conns, s'.index, i + 1)
  {
    hide Assigned;
    var s' := SortStep(s, i);
    SortStepKeeps(s, i);
    assert WellNamed(s.conns[i]);
    forall j | 0 <= j < i && s'.conns[j].id >= 0
      ensures s'.conns[j].id in s'.index && s'.index[s'.conns[j].id] == j
    {
      var k := s'.conns[j].id;
      assert s'.conns[j] == s.conns[j];
      if k == s'.conns[i].id {
        assert Assigned(s'.free, s'.conns, k);
        OneHolder(s'.free, s'.conns, j, i, k);
      }
    }
  }

  /** One step gives the connection an identifier if there is any. */
  lemma SortStepNames(s: Sorted, i: nat)
    requires i < |s.conns| && Partition(s.free, s.conns) && forall k :: k in s.index ==> s.index[k] < |s.conns|
    ensures
      var s' := SortStep(s, i);
      && (s'.conns[i].id < 0 ==> s'.free == []) && (s.free == [] ==> s'.free == [])
      && (s.conns[i].id < 0 ==> s'.conns[i] == SetId(s.conns[i], s'.conns[i].id) && s'.conns[i].id != 0)
      && (forall j :: 0 <= j < |s.conns| && (j != i || s.conns[i].id >= 0) ==> s'.conns[j] == s.conns[j])
  {
    hide Assigned;
    assert WellNamed(s.conns[i]);
    if s.conns[i].id < 0 && s.free != [] {
      NamingKeeps(s.free, s.conns, i);
    }
  }

  /** A connection stays without identifier only if the stack is exhausted; the others keep theirs, and
      nothing but identifiers changes. */
  lemma {:induction false} SortNames(cs: seq<Conn>, free: seq<int>, n: nat)
    requires n <= |cs| && Partition(free, cs) && NoneDeleted(cs)
    ensures
      var s := SortUpTo(cs, free, n);
      && (forall i :: 0 <= i < n && s.conns[i].id < 0 ==> s.free == [])
      && (forall i :: 0 <= i < |cs| && (cs[i].id >= 0 || i >= n) ==> s.conns[i] == cs[i])
      && (forall i :: 0 <= i < |cs| && cs[i].id < 0 ==>
            s.conns[i] == SetId(cs[i], s.conns[i].id) && s.conns[i].id != 0)
  {
    hide Partition, IndexOk, NoneDeleted, SortStep;
    if n > 0 {
      SortNames(cs, free, n - 1);
      SortKeeps(cs, free, n - 1);
      SortStepNames(SortUpTo(cs, free, n - 1), n - 1);
    }
  }

  /** `sort_connections` puts every connection that has or gets an identifier into its table, at the
      place of that identifier. */
  lemma {:induction false} SortFills(cs: seq<Conn>, free: seq<int>, n: nat)
    requires n <= |cs| && Partition(free, cs) && NoneDeleted(cs)
    ensures var s := SortUpTo(cs, free, n); Filled(s.conns, s.index, n)
  {
    hide Partition, IndexOk, NoneDeleted, SortStep;
    if n > 0 {
      SortFills(cs, free, n - 1);
      SortKeeps(cs, free, n - 1);
      SortStepFills(SortUpTo(cs, free, n - 1), n - 1);
    }
  }

  lemma ReactKeepsName(c: Conn, room: nat)
    requires WellNamed(c) && c.id >= 0
    ensures var r := React(c, room);
            r.conn.id == c.id && WellNamed(r.conn) && r.conn.state.delete == (c.state.delete || r.gone)
  {
  }

  /** `handle_state_changes` gives an identifier back exactly when it announces the end of the
      connection that holds it. */
  lemma HandleStepKeeps(h: Handled, i: int)
    requires h.Valid() && i != 0 && Partition(h.free, h.conns) && IndexOk(h.conns, h.index)
    ensures var h' := HandleStep(h, true, i);
            Partition(h'.free, h'.conns) && IndexOk(h'.conns, h'.index)
  {
    hide React, Assigned;
    if !h.again && i in h.index {
      var c := h.conns[h.index[i]];
      var r := React(c, h.room - |h.said|);
      assert WellNamed(c);
      ReactKeepsName(c, h.room - |h.said|);
      ReleaseKeeps(h.free, h.conns, h.index[i], r.conn);
    }
  }

  lemma {:induction false} HandleKeeps(h: Handled, n: nat)
    requires h.Valid() && Partition(h.free, h.conns) && IndexOk(h.conns, h.index)
    ensures var h' := HandleUpTo(h, true, n);
            Partition(h'.free, h'.conns) && IndexOk(h'.conns, h'.index)
  {
    hide Partition, HandleStep;
    if n > 0 {
      HandleKeeps(h, n - 1);
      HandleStepKeeps(HandleUpTo(h, true, n - 1), n);
    }
  }

  /** What the peer of the accepting side sends: nothing about the tunnel itself, and no NEW. */
  predicate FromPeer(c: Command) {
    c.cmd != CMD_NEW && c.arg != 0
  }

  /** The command gives an identifier back that its connection has given back before. */
  predicate ReleasesTwice(k: Control, c: Command) {
    var p := Find(k.conns, c.arg, 0);
    c.cmd == CMD_CLOSE && p.Some? && k.conns[p.value].state.delete
  }

  /** Each command of the peer ends exactly one thing at the connection it names: the whole, what
      the peer would send, what it would take, or the wait for the acknowledgement; nothing else
      changes anywhere. */
  lemma CommandEndsOneThing(v: Variant, accepting: bool, k: Control, c: Command, made: Option<Conn>)
    requires c.cmd != CMD_NEW
    ensures
      var k' := OnCommand(v, accepting, k, c, made);
      var p := Find(k.conns, c.arg, 0);
      && (p.None? ==> k' == k)
      && |k'.conns| == |k.conns| && k'.queue == k.queue && (!accepting ==> k'.free == k.free)
      && (forall j :: 0 <= j < |k.conns| && p != Some(j) ==> k'.conns[j] == k.conns[j])
      && (p.Some? ==>
            var a, b := k.conns[p.value], k'.conns[p.value];
            && b.state == a.state.(delete := a.state.delete || c.cmd == CMD_CLOSE,
                                   stopped := a.state.stopped && c.cmd != CMD_ACK)
            && b.outState == a.outState.(delete := a.outState.delete || c.cmd == CMD_CLOSE_SRC_TO_DST)
            && b.inState == a.inState.(delete := a.inState.delete || c.cmd == CMD_CLOSE_DST_TO_SRC)
            && b.inb == a.inb && b.outb == a.outb && b.id == a.id)
  {
    hide Find;
  }

  predicate DistinctIds(cs: seq<Conn>) {
    forall i, j :: 0 <= i < j < |cs| ==> cs[i].id != cs[j].id
  }

  /** On the side that answers NEW: an identifier that is known is not given out again, so
      identifiers stay distinct; an unknown one is answered by ACK or CLOSE exactly when the queue
      has room. */
  lemma NewIsAnswered(v: Variant, k: Control, arg: byte, made: Option<Conn>)
    requires made.Some? ==> made.value.id == arg as int
    ensures
      var k' := OnCommand(v, false, k, Command(CMD_NEW, arg), made);
      var known := exists i :: 0 <= i < |k.conns| && k.conns[i].id == arg as int;
      && (known ==> k' == k) && k'.free == k.free
      && (!known ==>
            && k'.conns == k.conns + (if made.Some? then [made.value] else [])
            && (k'.queue == k.queue + [Command(if made.Some? then CMD_ACK else CMD_CLOSE, arg)]
                <==> |k.queue| < QUEUE_SIZE))
      && (DistinctIds(k.conns) ==> DistinctIds(k'.conns))
  {
    hide Find;
    var p := Find(k.conns, arg, 0);
    if p.Some? {
      assert k.conns[p.value].id == arg as int;
    } else if made.None? {
      assert k.conns + [] == k.conns;
    }
  }

  lemma OnCommandKeeps(v: Variant, k: Control, c: Command, made: Option<Conn>)
    requires Partition(k.free, k.conns) && FromPeer(c) && (v.Corrected? || !ReleasesTwice(k, c))
    ensures var k' := OnCommand(v, true, k, c, made); Partition(k'.free, k'.conns)
  {
    hide Find, Assigned;
    var p := Find(k.conns, c.arg, 0);
    var k' := OnCommand(v, true, k, c, made);
    if p.Some? {
      assert WellNamed(k.conns[p.value]);
      if c.cmd in {CMD_CLOSE, CMD_CLOSE_SRC_TO_DST, CMD_CLOSE_DST_TO_SRC, CMD_ACK} {
        ReleaseKeeps(k.free, k.conns, p.value, k'.conns[p.value]);
      }
    }
  }

  /** The shipped handler of CMD_CLOSE keeps the division of the identifiers exactly when the
      connection is not marked for deletion already, or the stack is full and refuses. */
  lemma ShippedCloseKeepsPartitionIff(k: Control, c: Command, p: nat, made: Option<Conn>)
    requires Partition(k.free, k.conns) && c.cmd == CMD_CLOSE && 1 <= c.arg
    requires Find(k.conns, c.arg, 0) == Some(p)
    ensures var k' := OnCommand(Shipped, true, k, c, made);
            Partition(k'.free, k'.conns) <==> !k.conns[p].state.delete || |k.free| == MAX_STACK_SIZE
  {
    var k' := OnCommand(Shipped, true, k, c, made);
    assert WellNamed(k.conns[p]);
    FreeFits(k.free, k.conns);
    if k.conns[p].state.delete {
      assert k'.conns == k.conns;
      assert Assigned(k.free, k.conns, c.arg);
      if |k.free| < MAX_STACK_SIZE {
        assert k'.free == k.free + [c.arg as int];
        TimesConcat(k.free, [c.arg], c.arg);
        TimesOne(c.arg, c.arg);
        assert !Assigned(k'.free, k'.conns, c.arg);
      } else {
        assert k'.free == k.free;
      }
    } else {
      OnCommandKeeps(Shipped, k, c, made);
    }
  }

  /** A connection that was announced as closed, and so gave its identifier back, is closed by the
      peer as well before it leaves the table: the next two new connections share the identifier,
      and only one of them is in the table of the pump. */
  lemma ShippedSharesIdentifier(k: Control, c: Command, p: nat, f: seq<int>, x: Conn, y: Conn, made: Option<Conn>)
    requires c.cmd == CMD_CLOSE && Find(k.conns, c.arg, 0) == Some(p) && k.conns[p].state.delete
    requires k.free == f + [c.arg as int] && |f| + 1 < MAX_STACK_SIZE && NeedsId(x) && NeedsId(y)
    ensures var s := Sort([x, y], OnCommand(Shipped, true, k, c, made).free);
            && s.conns[0].id == s.conns[1].id == c.arg && s.index == map[c.arg as int := 1] && s.free == f
    ensures OnCommand(Corrected, true, k, c, made).free == k.free
  {
    var id: int := c.arg;
    var free := OnCommand(Shipped, true, k, c, made).free;
    assert free == f + [id, id];
    var s1 := SortUpTo([x, y], free, 1);
    assert SortUpTo([x, y], free, 0) == Sorted([x, y], free, map[]);
    assert s1 == Sorted([SetId(x, id), y], f + [id], map[id := 0]) by {
      assert free[..|free| - 1] == f + [id];
      assert [x, y][0 := SetId(x, id)] == [SetId(x, id), y];
    }
    assert (f + [id])[..|f + [id]| - 1] == f;
  }

  lemma MarkedWithIdentifier(free: seq<int>, cs: seq<Conn>, i: nat, id: int, c: Conn)
    requires Assigned(free, cs, id) && id != 0 && id != -1 && i < |cs| && Holds(cs[i], id)
    requires c.id == id && c.state.delete
    ensures var ds := cs[i := c]; forall j :: 0 <= j < |ds| && ds[j].id == id ==> ds[j].state.delete
  {
    hide Assigned;
    forall j | 0 <= j < |cs| && j != i && cs[j].id == id
      ensures cs[j].state.delete
    {
      if !cs[j].state.delete {
        OneHolder(free, cs, i, j, id);
      }
    }
  }

  lemma ReactToEnd(c: Conn, room: nat)
    requires ShouldCloseConnection(c) && room >= 2
    ensures var r := React(c, room);
            r.gone && !r.again && r.conn.state.delete && r.conn.id == c.id
  {
  }

  /** How the state of `ShippedSharesIdentifier` comes about: the loop of `handle_state_changes`
      announces the end of a drained connection, and the peer's CLOSE for it is handled in the same
      `update`. Then its identifier is on the stack twice. */
  lemma DoubleReleaseIsReached(h: Handled, i: byte, x: Conn, y: Conn)
    requires h.Valid() && Partition(h.free, h.conns) && IndexOk(h.conns, h.index) && !h.again
    requires i != 0 && i as int in h.index && ShouldCloseConnection(h.conns[h.index[i]])
    requires |h.said| + 2 <= h.room && |h.free| + 1 < MAX_STACK_SIZE && NeedsId(x) && NeedsId(y)
    ensures
      var h' := HandleStep(h, true, i);
      var k := Control(h'.conns, h'.free, []);
      var s := Sort([x, y], OnCommand(Shipped, true, k, Command(CMD_CLOSE, i), None).free);
      && h'.free == h.free + [i as int] && ReleasesTwice(k, Command(CMD_CLOSE, i))
      && s.conns[0].id == s.conns[1].id == i && s.index == map[i as int := 1]
  {
    hide React, Assigned, Holders, Sort, OnCommand, Find;
    var p := h.index[i];
    var h' := HandleStep(h, true, i);
    ReactToEnd(h.conns[p], h.room - |h.said|);
    assert Assigned(h.free, h.conns, i);
    MarkedWithIdentifier(h.free, h.conns, p, i, h'.conns[p]);
    assert h'.conns[p].id == i as int;
    var q := Find(h'.conns, i, 0);
    assert q.Some? && h'.conns[q.value].state.delete;
    ShippedSharesIdentifier(Control(h'.conns, h'.free, []), Command(CMD_CLOSE, i), q.value, h.free, x, y, None);
  }
}
