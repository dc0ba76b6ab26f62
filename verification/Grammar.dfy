/** What may be said about one identifier, in which order. */
module Grammar {
  import opened Basics
  import opened Ring
  import opened Wire
  import opened Connections
  import opened Protocol
  import opened Identifiers
  import opened Duties

  /** Something is put in line for the tunnel, the peer ends a connection, or something was read
      out of the tunnel. */
  datatype Event = Emit(item: Item) | PeerClose(id: byte) | Take(atom: Atom)

  /** The life of an identifier: not in use; in use, with the directions given up so far; or the
      order was broken. */
  datatype Phase = Idle | Open(src: bool, dst: bool) | Broken

  function AfterCommand(ph: Phase, cmd: byte): Phase {
    if cmd == CMD_NEW && ph.Idle? then Phase.Open(false, false)
    else if cmd == CMD_CLOSE && ph.Open? then Idle
    else if cmd == CMD_CLOSE_SRC_TO_DST && ph.Open? && !ph.src then Phase.Open(true, ph.dst)
    else if cmd == CMD_CLOSE_DST_TO_SRC && ph.Open? && !ph.dst then Phase.Open(ph.src, true)
    else Broken
  }

  /** A generation starts with NEW and ends with CLOSE or with the peer's close; in between come
      data, until CLOSE_SRC_TO_DST, and each half-close at most once. */
  function Advance(ph: Phase, e: Event, k: byte): Phase {
    match e
    case PeerClose(id) => if id != k || ph.Broken? then ph else Idle
    case Take(_) => ph
    case Emit(Data(id, p)) => if id != k || (ph.Open? && !ph.src) then ph else Broken
    case Emit(Order(c)) => if c.arg != k then ph else AfterCommand(ph, c.cmd)
  }

  /** The phase of identifier `k` after the first `n` events. */
  function PhaseAfter(ph: Phase, log: seq<Event>, n: nat, k: byte): Phase
    requires n <= |log|
  {
    if n == 0 then ph else Advance(PhaseAfter(ph, log, n - 1, k), log[n - 1], k)
  }

  lemma {:induction false} PhaseOfFront(ph: Phase, a: seq<Event>, b: seq<Event>, n: nat, k: byte)
    requires n <= |a|
    ensures PhaseAfter(ph, a + b, n, k) == PhaseAfter(ph, a, n, k)
  {
    hide Advance;
    if n > 0 {
      PhaseOfFront(ph, a, b, n - 1, k);
    }
  }

  lemma {:induction false} PhaseGoesOn(ph: Phase, a: seq<Event>, b: seq<Event>, n: nat, k: byte)
    requires n <= |b|
    ensures PhaseAfter(ph, a + b, |a| + n, k) == PhaseAfter(PhaseAfter(ph, a, |a|, k), b, n, k)
  {
    hide Advance;
    if n == 0 {
      PhaseOfFront(ph, a, b, |a|, k);
    } else {
      PhaseGoesOn(ph, a, b, n - 1, k);
    }
  }

  lemma PhaseConcat(ph: Phase, a: seq<Event>, b: seq<Event>, k: byte)
    ensures PhaseAfter(ph, a + b, |a + b|, k) == PhaseAfter(PhaseAfter(ph, a, |a|, k), b, |b|, k)
  {
    PhaseGoesOn(ph, a, b, |b|, k);
  }

  // ---------------------------------------------------------------- what an unbroken log tells

  /** The event is command `cmd` about identifier `k`. */
  predicate IsOrder(e: Event, cmd: byte, k: byte) {
    e == Emit(Order(Command(cmd, k)))
  }

  predicate IsData(e: Event, k: byte) {
    e.Emit? && e.item.Data? && e.item.id == k
  }

  lemma {:induction false} BrokenStays(log: seq<Event>, i: nat, n: nat, k: byte)
    requires i <= n <= |log| && PhaseAfter(Idle, log, i, k).Broken?
    ensures PhaseAfter(Idle, log, n, k).Broken?
  {
    if i < n {
      BrokenStays(log, i, n - 1, k);
    }
  }

  /** As long as no NEW is said about `k`, the source direction stays given up or unused. */
  lemma {:induction false} SourceStaysClosed(log: seq<Event>, i: nat, j: nat, k: byte)
    requires i <= j <= |log| && forall m :: i <= m < j ==> !IsOrder(log[m], CMD_NEW, k)
    requires !PhaseAfter(Idle, log, i, k).Open? || PhaseAfter(Idle, log, i, k).src
    ensures !PhaseAfter(Idle, log, j, k).Open? || PhaseAfter(Idle, log, j, k).src
  {
    if i < j {
      SourceStaysClosed(log, i, j - 1, k);
      assert !IsOrder(log[j - 1], CMD_NEW, k);
    }
  }

  /** In an unbroken log no data of `k` follows its CLOSE_SRC_TO_DST or CLOSE without a new NEW
      in between, and none comes before the first NEW. */
  lemma DataNeedsOpenSource(log: seq<Event>, i: nat, j: nat, k: byte)
    requires i <= j < |log| && IsData(log[j], k) && !PhaseAfter(Idle, log, |log|, k).Broken?
    requires i == 0 || IsOrder(log[i - 1], CMD_CLOSE_SRC_TO_DST, k) || IsOrder(log[i - 1], CMD_CLOSE, k)
             || log[i - 1] == PeerClose(k)
    ensures exists m :: i <= m < j && IsOrder(log[m], CMD_NEW, k)
  {
    if forall m :: i <= m < j ==> !IsOrder(log[m], CMD_NEW, k) {
      var ph := PhaseAfter(Idle, log, i, k);
      SourceStaysClosed(log, i, j, k);
      BrokenStays(log, j + 1, |log|, k);
    }
  }

  /** In an unbroken log an identifier that was said to be NEW is so again only after its CLOSE or
      the peer's. */
  lemma NewNeedsClose(log: seq<Event>, i: nat, j: nat, k: byte)
    requires i < j < |log| && IsOrder(log[i], CMD_NEW, k) && IsOrder(log[j], CMD_NEW, k)
    requires !PhaseAfter(Idle, log, |log|, k).Broken?
    ensures exists m :: i < m < j && (IsOrder(log[m], CMD_CLOSE, k) || log[m] == PeerClose(k))
  {
    if forall m :: i < m < j ==> !(IsOrder(log[m], CMD_CLOSE, k) || log[m] == PeerClose(k)) {
      StaysInUse(log, i + 1, j, k);
      BrokenStays(log, j + 1, |log|, k);
    }
  }

  lemma {:induction false} StaysInUse(log: seq<Event>, i: nat, j: nat, k: byte)
    requires i <= j <= |log| && !PhaseAfter(Idle, log, i, k).Idle?
    requires forall m :: i <= m < j ==> !(IsOrder(log[m], CMD_CLOSE, k) || log[m] == PeerClose(k))
    ensures !PhaseAfter(Idle, log, j, k).Idle?
  {
    if i < j {
      StaysInUse(log, i, j - 1, k);
      assert !(IsOrder(log[j - 1], CMD_CLOSE, k) || log[j - 1] == PeerClose(k));
    }
  }

  // ---------------------------------------------------------------- commands in line

  function Emits(cs: seq<Command>): (es: seq<Event>)
    ensures |es| == |cs|
  {
    seq(|cs|, i requires 0 <= i < |cs| => Emit(Order(cs[i])))
  }

  function PhaseSaid(ph: Phase, cs: seq<Command>, k: byte): Phase {
    PhaseAfter(ph, Emits(cs), |cs|, k)
  }

  lemma PhaseSaidConcat(ph: Phase, a: seq<Command>, b: seq<Command>, k: byte)
    ensures PhaseSaid(ph, a + b, k) == PhaseSaid(PhaseSaid(ph, a, k), b, k)
  {
    assert Emits(a + b) == Emits(a) + Emits(b);
    PhaseConcat(ph, Emits(a), Emits(b), k);
  }

  lemma {:induction false} OthersSilent(ph: Phase, cs: seq<Command>, n: nat, k: byte)
    requires n <= |cs| && forall i :: 0 <= i < n ==> cs[i].arg != k
    ensures PhaseAfter(ph, Emits(cs), n, k) == ph
  {
    if n > 0 {
      OthersSilent(ph, cs, n - 1, k);
    }
  }

  lemma SaysNothing(ph: Phase, k: byte)
    ensures PhaseSaid(ph, [], k) == ph
  {
  }

  lemma SaysOne(ph: Phase, cmd: byte, k: byte)
    ensures PhaseSaid(ph, Said([cmd], k), k) == AfterCommand(ph, cmd)
  {
    assert PhaseAfter(ph, Emits(Said([cmd], k)), 0, k) == ph;
  }

  lemma SaidConcat(a: seq<byte>, b: seq<byte>, id: int)
    ensures Said(a + b, id) == Said(a, id) + Said(b, id)
  {
  }

  // ---------------------------------------------------------------- flags and phase

  /** The flags of the connection that holds the identifier agree with the phase. */
  predicate Agrees(c: Conn, ph: Phase) {
    if c.state.isNew then ph.Idle?
    else ph.Open? && (ph.src ==> c.inState.delete) && (ph.dst ==> c.outState.delete)
  }

  /** The connection after `r` agrees with the phase after what it said. */
  predicate Follows(r: Reaction, ph: Phase, k: byte) {
    var ph' := PhaseSaid(ph, Said(r.said, k), k);
    if r.gone then ph'.Idle? else Agrees(r.conn, ph')
  }

  lemma NoWord(c: Conn, ph: Phase, again: bool, k: byte)
    requires Agrees(c, ph)
    ensures Follows(Reaction(c, [], false, again), ph, k)
  {
    assert Said([], k) == [];
    SaysNothing(ph, k);
  }

  lemma GreetAgrees(c: Conn, room: nat, ph: Phase, k: byte)
    requires Agrees(c, ph)
    ensures Follows(Greet(c, room), ph, k)
    ensures !Greet(c, room).again ==> !Greet(c, room).conn.state.isNew
  {
    hide PhaseSaid, Said;
    NoWord(c, ph, Greet(c, room).again, k);
    SaysOne(ph, CMD_NEW, k);
  }

  lemma AnnounceInAgrees(c: Conn, room: nat, ph: Phase, k: byte)
    requires Agrees(c, ph) && !c.state.isNew
    ensures Follows(AnnounceIn(c, room), ph, k) && !AnnounceIn(c, room).gone
    ensures !AnnounceIn(c, room).conn.state.isNew
  {
    hide PhaseSaid, Said;
    NoWord(c, ph, AnnounceIn(c, room).again, k);
    SaysOne(ph, CMD_CLOSE_SRC_TO_DST, k);
  }

  lemma AnnounceOutAgrees(c: Conn, room: nat, ph: Phase, k: byte)
    requires Agrees(c, ph) && !c.state.isNew
    ensures Follows(AnnounceOut(c, room), ph, k) && !AnnounceOut(c, room).gone
    ensures !AnnounceOut(c, room).conn.state.isNew
  {
    hide PhaseSaid, Said;
    NoWord(c, ph, AnnounceOut(c, room).again, k);
    SaysOne(ph, CMD_CLOSE_DST_TO_SRC, k);
  }

  lemma InTurn(r1: Reaction, r2: Reaction, ph: Phase, k: byte)
    requires Follows(r1, ph, k) && !r1.gone && Follows(r2, PhaseSaid(ph, Said(r1.said, k), k), k)
    ensures Follows(Reaction(r2.conn, r1.said + r2.said, r2.gone, r2.again), ph, k)
  {
    hide PhaseSaid, Said, Agrees;
    SaidConcat(r1.said, r2.said, k);
    PhaseSaidConcat(ph, Said(r1.said, k), Said(r2.said, k), k);
  }

  lemma AnnounceAgrees(c: Conn, room: nat, ph: Phase, k: byte)
    requires Agrees(c, ph) && !c.state.isNew
    ensures Follows(Announce(c, room), ph, k)
    ensures !Announce(c, room).conn.state.isNew
  {
    hide PhaseSaid, Said, AnnounceIn, AnnounceOut;
    if ShouldCloseConnection(c) {
      NoWord(c, ph, true, k);
      SaysOne(ph, CMD_CLOSE, k);
    } else {
      AnnounceInAgrees(c, room, ph, k);
      var first := AnnounceIn(c, room);
      var ph' := PhaseSaid(ph, Said(first.said, k), k);
      AnnounceOutAgrees(first.conn, room - |first.said|, ph', k);
      InTurn(first, AnnounceOut(first.conn, room - |first.said|), ph, k);
    }
  }

  /** Whatever `handle_state_changes` says about a connection continues the order; afterwards,
      unless the queue was full, the connection is greeted. */
  lemma ReactAgrees(c: Conn, room: nat, ph: Phase, k: byte)
    requires Agrees(c, ph)
    ensures Follows(React(c, room), ph, k)
    ensures !React(c, room).again ==> !React(c, room).conn.state.isNew
  {
    hide PhaseSaid, Said, Greet, Announce, Agrees, Follows;
    GreetAgrees(c, room, ph, k);
    var g := Greet(c, room);
    if !g.again {
      FollowsAgrees(g, ph, k);
      var ph' := PhaseSaid(ph, Said(g.said, k), k);
      AnnounceAgrees(g.conn, room - |g.said|, ph', k);
      InTurn(g, Announce(g.conn, room - |g.said|), ph, k);
    }
  }

  lemma FollowsAgrees(r: Reaction, ph: Phase, k: byte)
    requires Follows(r, ph, k) && !r.gone
    ensures Agrees(r.conn, PhaseSaid(ph, Said(r.said, k), k))
  {
  }

  // ---------------------------------------------------------------- the whole table

  /** The phase of `k` agrees with its holder; without a holder it is not in use. */
  ghost predicate Matches(cs: seq<Conn>, ph: Phase, k: byte) {
    && (forall i :: 0 <= i < |cs| && Holds(cs[i], k) ==> Agrees(cs[i], ph))
    && ((forall i :: 0 <= i < |cs| ==> !Holds(cs[i], k)) ==> ph.Idle?)
  }

  lemma MatchesUnbroken(cs: seq<Conn>, ph: Phase, k: byte)
    requires Matches(cs, ph, k)
    ensures !ph.Broken?
  {
  }

  lemma SortStepMatches(s: Sorted, i: nat, ph: Phase, k: byte)
    requires i < |s.conns| && k != 0 && Matches(s.conns, ph, k)
    requires Partition(s.free, s.conns) && NoneDeleted(s.conns) && IndexOk(s.conns, s.index)
    ensures Matches(SortStep(s, i).conns, ph, k)
  {
    hide Assigned, Holders;
    var c := s.conns[i];
    assert WellNamed(c);
    if NeedsId(c) && s.free != [] {
      NamingKeeps(s.free, s.conns, i);
      var id := s.free[|s.free| - 1];
      var cs := SortStep(s, i).conns;
      NoHolder(s.conns, id);
      assert cs[i] == SetId(c, id);
      assert forall j :: 0 <= j < |cs| && j != i ==> cs[j] == s.conns[j];
    }
  }

  lemma NoHolder(cs: seq<Conn>, k: int)
    requires Holders(cs, |cs|, k) == 0
    ensures forall i :: 0 <= i < |cs| ==> !Holds(cs[i], k)
  {
    forall i | 0 <= i < |cs|
      ensures !Holds(cs[i], k)
    {
      if Holds(cs[i], k) {
        HolderCounts(cs, i, |cs|, k);
      }
    }
  }

  lemma {:induction false} SortMatches(cs: seq<Conn>, free: seq<int>, n: nat, ph: Phase, k: byte)
    requires n <= |cs| && k != 0 && Partition(free, cs) && NoneDeleted(cs) && Matches(cs, ph, k)
    ensures Matches(SortUpTo(cs, free, n).conns, ph, k)
  {
    hide Partition, NoneDeleted, Matches, IndexOk, SortStep;
    if n > 0 {
      SortMatches(cs, free, n - 1, ph, k);
      SortKeeps(cs, free, n - 1);
      SortStepMatches(SortUpTo(cs, free, n - 1), n - 1, ph, k);
    }
  }

  /** Identifier `k` is held once at most. */
  predicate HeldOnce(cs: seq<Conn>, k: int) {
    forall i, j :: 0 <= i < |cs| && 0 <= j < |cs| && Holds(cs[i], k) && Holds(cs[j], k) ==> i == j
  }

  lemma PartitionHolds(free: seq<int>, cs: seq<Conn>, k: byte)
    requires Partition(free, cs) && k != 0
    ensures HeldOnce(cs, k)
  {
    hide Times, Holders, Holds;
    assert Assigned(free, cs, k);
    forall i, j | 0 <= i < |cs| && 0 <= j < |cs| && Holds(cs[i], k) && Holds(cs[j], k)
      ensures i == j
    {
      OneHolder(free, cs, i, j, k);
    }
  }

  /** Replacing the holder of `k`. */
  lemma HolderMatches(cs: seq<Conn>, p: nat, c: Conn, ph: Phase, k: byte)
    requires HeldOnce(cs, k) && p < |cs| && Holds(cs[p], k) && c.id == k as int
    requires if c.state.delete then ph.Idle? else Agrees(c, ph)
    ensures Matches(cs[p := c], ph, k)
  {
    hide Agrees;
    assert Holds(cs[p := c][p], k) <==> !c.state.delete;
  }

  /** Replacing a connection that has nothing to do with `k`. */
  lemma OtherMatches(cs: seq<Conn>, p: nat, c: Conn, ph: Phase, k: byte)
    requires p < |cs| && Matches(cs, ph, k) && !Holds(cs[p], k) && !Holds(c, k)
    ensures Matches(cs[p := c], ph, k)
  {
    hide Agrees, Holds;
    var cs' := cs[p := c];
    assert forall i :: 0 <= i < |cs| && i != p ==> cs'[i] == cs[i];
  }

  /** The phase of `k` after what `handle_state_changes` has said so far. */
  function PhaseOf(h: Handled, ph: Phase, k: byte): Phase {
    PhaseSaid(ph, h.said, k)
  }

  lemma HandleStepMatches(h: Handled, accepting: bool, i: int, ph: Phase, k: byte)
    requires h.Valid() && 1 <= i <= MAX_STACK_SIZE && k != 0
    requires HeldOnce(h.conns, k) && IndexOk(h.conns, h.index)
    requires Matches(h.conns, PhaseOf(h, ph, k), k)
    ensures var h' := HandleStep(h, accepting, i); Matches(h'.conns, PhaseOf(h', ph, k), k)
  {
    hide React, HeldOnce, Matches, PhaseSaid, Agrees, Follows, Said;
    if !h.again && i in h.index {
      var p := h.index[i];
      var c := h.conns[p];
      var room := h.room - |h.said|;
      var r := React(c, room);
      var ph1 := PhaseOf(h, ph, k);
      GoneIsDeleted(c, room);
      PhaseSaidConcat(ph, h.said, Said(r.said, c.id), k);
      if i == k as int {
        HolderAgrees(h.conns, p, ph1, k);
        ReactAgrees(c, room, ph1, k);
        FollowsCases(r, ph1, k);
        HolderMatches(h.conns, p, r.conn, PhaseSaid(ph1, Said(r.said, k), k), k);
      } else {
        OtherSaid(r.said, i, ph1, k);
        OtherMatches(h.conns, p, r.conn, ph1, k);
      }
    }
  }

  lemma HandleStepHolds(h: Handled, accepting: bool, i: int, k: int)
    requires h.Valid() && HeldOnce(h.conns, k)
    ensures HeldOnce(HandleStep(h, accepting, i).conns, k)
  {
    hide React;
    if !h.again && i in h.index {
      GoneIsDeleted(h.conns[h.index[i]], h.room - |h.said|);
      var h' := HandleStep(h, accepting, i);
      assert forall j :: 0 <= j < |h.conns| && Holds(h'.conns[j], k) ==> Holds(h.conns[j], k);
    }
  }

  lemma {:induction false} HandleHolds(h: Handled, accepting: bool, n: nat, k: int)
    requires h.Valid() && HeldOnce(h.conns, k)
    ensures HeldOnce(HandleUpTo(h, accepting, n).conns, k)
  {
    hide HeldOnce, HandleStep;
    if n > 0 {
      HandleHolds(h, accepting, n - 1, k);
      HandleStepHolds(HandleUpTo(h, accepting, n - 1), accepting, n, k);
    }
  }

  lemma HolderAgrees(cs: seq<Conn>, p: nat, ph: Phase, k: byte)
    requires p < |cs| && Holds(cs[p], k) && Matches(cs, ph, k)
    ensures Agrees(cs[p], ph)
  {
  }

  lemma FollowsCases(r: Reaction, ph: Phase, k: byte)
    requires Follows(r, ph, k)
    ensures var ph' := PhaseSaid(ph, Said(r.said, k), k);
            if r.gone then ph'.Idle? else Agrees(r.conn, ph')
  {
  }

  lemma OtherSaid(said: seq<byte>, i: int, ph: Phase, k: byte)
    requires 0 <= i < 256 && i != k as int
    ensures PhaseSaid(ph, Said(said, i), k) == ph
  {
    OthersSilent(ph, Said(said, i), |said|, k);
  }

  /** On either side. */
  lemma {:induction false} HandleMatches(h: Handled, accepting: bool, n: nat, ph: Phase, k: byte)
    requires h.Valid() && n <= MAX_STACK_SIZE && k != 0
    requires HeldOnce(h.conns, k) && IndexOk(h.conns, h.index)
    requires Matches(h.conns, PhaseOf(h, ph, k), k)
    ensures var h' := HandleUpTo(h, accepting, n); Matches(h'.conns, PhaseOf(h', ph, k), k)
  {
    hide HeldOnce, Matches, IndexOk, HandleStep, PhaseOf;
    if n > 0 {
      HandleMatches(h, accepting, n - 1, ph, k);
      IndexStays(h, accepting, n - 1);
      HandleHolds(h, accepting, n - 1, k);
      HandleStepMatches(HandleUpTo(h, accepting, n - 1), accepting, n, ph, k);
    }
  }

  /** Every connection in the table of the pump is greeted, up to identifier `n`. */
  predicate Greeted(h: Handled, n: nat)
    requires h.Valid()
  {
    !h.again ==> forall i :: i in h.index && 1 <= i <= n ==> !h.conns[h.index[i]].state.isNew
  }

  lemma HandleStepGreets(h: Handled, n: nat)
    requires h.Valid() && IndexOk(h.conns, h.index) && Greeted(h, n)
    ensures Greeted(HandleStep(h, true, n + 1), n + 1)
  {
    hide React;
    if !h.again && n + 1 in h.index {
      var c := h.conns[h.index[n + 1]];
      ReactGreets(c, h.room - |h.said|);
    }
  }

  lemma ReactGreets(c: Conn, room: nat)
    ensures !React(c, room).again ==> !React(c, room).conn.state.isNew
  {
  }

  lemma {:induction false} HandleGreets(h: Handled, n: nat)
    requires h.Valid() && Partition(h.free, h.conns) && IndexOk(h.conns, h.index)
    ensures Greeted(HandleUpTo(h, true, n), n)
  {
    hide Partition, HandleStep, Greeted, IndexOk;
    if n > 0 {
      HandleGreets(h, n - 1);
      HandleKeeps(h, n - 1);
      HandleStepGreets(HandleUpTo(h, true, n - 1), n - 1);
    } else {
      NobodyToGreet(h);
    }
  }

  lemma NobodyToGreet(h: Handled)
    requires h.Valid()
    ensures Greeted(h, 0)
  {
  }

  /** The peer ends a connection that is not marked for deletion yet. */
  predicate PeerCloses(k: Control, c: Command) {
    var p := Find(k.conns, c.arg, 0);
    c.cmd == CMD_CLOSE && p.Some? && !k.conns[p.value].state.delete
  }

  function PeerEvents(k: Control, c: Command): seq<Event> {
    if PeerCloses(k, c) then [PeerClose(c.arg)] else []
  }

  lemma PeerPhase(ph: Phase, k: Control, c: Command, id: byte)
    requires !ph.Broken?
    ensures PhaseAfter(ph, PeerEvents(k, c), |PeerEvents(k, c)|, id)
            == if PeerCloses(k, c) && c.arg == id then Idle else ph
  {
    hide PeerCloses;
    assert PhaseAfter(ph, PeerEvents(k, c), 0, id) == ph;
  }

  /** A command about a connection, on either side. */
  lemma OnCommandMatches(v: Variant, accepting: bool, k: Control, c: Command, ph: Phase, id: byte)
    requires id != 0 && c.cmd != CMD_NEW && HeldOnce(k.conns, id) && Matches(k.conns, ph, id)
    ensures Matches(OnCommand(v, accepting, k, c, None).conns,
                    PhaseAfter(ph, PeerEvents(k, c), |PeerEvents(k, c)|, id), id)
  {
    hide HeldOnce, Matches, Find, PhaseAfter, PeerEvents;
    MatchesUnbroken(k.conns, ph, id);
    PeerPhase(ph, k, c, id);
    var f := Find(k.conns, c.arg, 0);
    if f.Some? {
      var p := f.value;
      var d := OnCommand(v, accepting, k, c, None).conns[p];
      if Holds(k.conns[p], id) {
        HolderAgrees(k.conns, p, ph, id);
        CommandAgrees(v, accepting, k, c, p, ph, id);
        HolderMatches(k.conns, p, d, if PeerCloses(k, c) && c.arg == id then Idle else ph, id);
      } else {
        OtherMatches(k.conns, p, d, ph, id);
      }
      assert OnCommand(v, accepting, k, c, None).conns == k.conns[p := d];
    }
  }

  lemma CommandAgrees(v: Variant, accepting: bool, k: Control, c: Command, p: nat, ph: Phase, id: byte)
    requires c.cmd != CMD_NEW && Find(k.conns, c.arg, 0) == Some(p) && Holds(k.conns[p], id)
    requires Agrees(k.conns[p], ph)
    ensures
      var d := OnCommand(v, accepting, k, c, None).conns[p];
      d.id == id as int && (d.state.delete <==> PeerCloses(k, c)) && (!d.state.delete ==> Agrees(d, ph))
  {
  }
}
