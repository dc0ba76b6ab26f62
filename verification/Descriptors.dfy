/** The life of the descriptors of a connection manager over whole runs, also over runs of updates. */
module Descriptors {
  import opened Basics
  import opened Ring
  import opened Connections
  import opened Slots
  import opened Receiver
  import opened Protocol
  import opened Identifiers
  import opened Runs
  import H = Host

  /** The table, and the record of all descriptors taken over and closed. */
  datatype Manager = Manager(table: seq<Slot>, added: seq<int>, closed: seq<int>)

  datatype Step =
    | AddStep(conn: Conn, sock: int)    // cm_connect or the accepted tunnel connection
    | PollStep(input: PollInput)        // cm_poll
    | TouchStep(table: seq<Slot>)       // what controller and pump do in between

  /** Controller and pump change identifiers, the other flags and the buffers. */
  predicate Touches(s: Slot, s': Slot) {
    && s'.sock == s.sock && s'.pfd == s.pfd && s'.conn.Valid()
    && s'.conn.state.closed == s.conn.state.closed
    && s'.conn.inState.closed == s.conn.inState.closed
    && s'.conn.outState.closed == s.conn.outState.closed
  }

  predicate CanTake(m: Manager, step: Step) {
    match step
    case AddStep(c, sock) =>
      |m.table| < MAX_SLOTS && sock >= 0 && c.Valid()
      && c.state == c.inState == c.outState == NO_FLAGS
    case PollStep(p) => PollOk(m.table, p)
    case TouchStep(t) =>
      |t| == |m.table| && forall i :: 0 <= i < |t| ==> Touches(m.table[i], t[i])
  }

  function AcceptedFds(p: PollInput): seq<int> {
    if p.completes && p.accepted.Some? then [p.accepted.value.sock] else []
  }

  function Next(m: Manager, step: Step): Manager {
    if !CanTake(m, step) then m
    else
      match step
      case AddStep(c, sock) => Manager(m.table + [AddedSlot(c, sock)], m.added + [sock], m.closed)
      case PollStep(p) =>
        var q := Poll(m.table, p);
        Manager(q.table, m.added + AcceptedFds(p), m.closed + q.closed)
      case TouchStep(t) => Manager(t, m.added, m.closed)
  }

  function Run(m: Manager, steps: seq<Step>): Manager {
    RunTo((x, t) => Next(x, t), m, steps, |steps|)
  }

  /** For descriptor `d`: what was taken over is open or was closed. */
  predicate Accounted(m: Manager, d: int) {
    TableOk(m.table) && OpenOn(m.table, |m.table|, d) + Times(m.closed, d) == Times(m.added, d)
  }

  lemma AddKeeps(m: Manager, c: Conn, sock: int, d: int)
    requires Accounted(m, d) && CanTake(m, AddStep(c, sock))
    ensures Accounted(Next(m, AddStep(c, sock)), d)
  {
    var t := m.table + [AddedSlot(c, sock)];
    OpenOnFront(m.table, t, |m.table|, d);
    TimesConcat(m.added, [sock], d);
    TimesOne(sock, d);
  }

  lemma PollKeeps(m: Manager, p: PollInput, d: int)
    requires Accounted(m, d) && PollOk(m.table, p)
    ensures Accounted(Next(m, PollStep(p)), d)
  {
    hide TableOk, Poll, PollOk, OpenOn, Times;
    PollKeepsOk(m.table, p);
    PollAccounts(m.table, p, d);
    TimesConcat(m.closed, Poll(m.table, p).closed, d);
    TimesConcat(m.added, AcceptedFds(p), d);
    TimesOne(if p.accepted.Some? then p.accepted.value.sock else 0, d);
  }

  lemma TouchKeeps(m: Manager, t: seq<Slot>, d: int)
    requires Accounted(m, d) && CanTake(m, TouchStep(t))
    ensures Accounted(Next(m, TouchStep(t)), d)
  {
    SameSockets(m.table, t, |t|, d);
  }

  lemma NextKeeps(m: Manager, step: Step, d: int)
    requires Accounted(m, d)
    ensures Accounted(Next(m, step), d)
  {
    hide Accounted, Poll, PollOk;
    if CanTake(m, step) {
      match step {
        case AddStep(c, sock) => AddKeeps(m, c, sock, d);
        case PollStep(p) => PollKeeps(m, p, d);
        case TouchStep(t) => TouchKeeps(m, t, d);
      }
    }
  }

  lemma RunKeepsAccount(steps: seq<Step>, d: int)
    ensures Accounted(Run(Manager([], [], []), steps), d)
  {
    var m := Manager([], [], []);
    forall x, t | Accounted(x, d)
      ensures Accounted(Next(x, t), d)
    {
      NextKeeps(x, t, d);
    }
    RunKeeps((x, t) => Next(x, t), x => Accounted(x, d), m, steps, |steps|);
  }

  /** Over every run that ends in `destroy_manager`, each descriptor is closed exactly as often as
      it was taken over. */
  lemma EveryDescriptorClosedOnce(steps: seq<Step>)
    ensures
      var m := Run(Manager([], [], []), steps);
      multiset(m.closed + DestroyedFds(m.table, |m.table|)) == multiset(m.added)
  {
    hide Accounted, Run;
    var m := Run(Manager([], [], []), steps);
    forall d
      ensures multiset(m.closed + DestroyedFds(m.table, |m.table|))[d] == multiset(m.added)[d]
    {
      RunKeepsAccount(steps, d);
      ClosedAtLast(m, d);
    }
  }

  lemma ClosedAtLast(m: Manager, d: int)
    requires Accounted(m, d)
    ensures multiset(m.closed + DestroyedFds(m.table, |m.table|))[d] == multiset(m.added)[d]
  {
    DestroyAccounts(m.table, |m.table|, d);
    TimesConcat(m.closed, DestroyedFds(m.table, |m.table|), d);
  }

  // ---------------------------------------------------------------- updates are such steps

  /** Nothing of the connection that `close_sockets` has set changes, and its buffers stay sound. */
  predicate SameClosed(c: Conn, d: Conn) {
    && d.state.closed == c.state.closed && d.inState.closed == c.inState.closed
    && d.outState.closed == c.outState.closed && (c.Valid() ==> d.Valid())
  }

  predicate AllSameClosed(cs: seq<Conn>, ds: seq<Conn>) {
    |ds| == |cs| && forall i :: 0 <= i < |cs| ==> SameClosed(cs[i], ds[i])
  }

  lemma SameClosedOn(cs: seq<Conn>, ds: seq<Conn>, es: seq<Conn>)
    requires AllSameClosed(cs, ds) && AllSameClosed(ds, es)
    ensures AllSameClosed(cs, es)
  {
    hide Conn.Valid;
  }

  lemma {:induction false} SortSameClosed(cs: seq<Conn>, free: seq<int>, n: nat)
    requires n <= |cs|
    ensures AllSameClosed(cs, SortUpTo(cs, free, n).conns)
  {
    hide Ring.Valid;
    if n > 0 {
      SortSameClosed(cs, free, n - 1);
    }
  }

  lemma AnnounceSameClosed(c: Conn, room: nat)
    ensures SameClosed(c, Announce(c, room).conn)
  {
    hide ShouldCloseConnection, ShouldCloseIn, ShouldCloseOut, Ring.Valid;
  }

  lemma ReactSameClosed(c: Conn, room: nat)
    ensures SameClosed(c, React(c, room).conn)
  {
    hide Announce, Ring.Valid;
    var g := Greet(c, room);
    if !g.again {
      AnnounceSameClosed(g.conn, room - |g.said|);
    }
  }

  lemma {:induction false} HandleSameClosed(h: Handled, n: nat)
    requires h.Valid()
    ensures AllSameClosed(h.conns, HandleUpTo(h, true, n).conns)
  {
    hide React, Conn.Valid;
    if n > 0 {
      HandleSameClosed(h, n - 1);
      var g := HandleUpTo(h, true, n - 1);
      if !g.again && n in g.index {
        ReactSameClosed(g.conns[g.index[n]], g.room - |g.said|);
      }
    }
  }

  lemma ReactedSameClosed(v: Variant, h: H.Host, c: Command)
    requires FromPeer(c)
    ensures AllSameClosed(H.Conns(h.table), H.Conns(H.Reacted(v, h, c).table))
  {
    hide Find, Ring.Valid, ReleasesTwice;
  }

  lemma HeardSameClosed(cs: seq<Conn>, index: map<int, nat>, r: Received)
    requires H.Usable(cs, index) && r.Valid()
    ensures AllSameClosed(cs, H.HeardConns(cs, index, r))
  {
    hide H.Usable;
    H.HeardUsable(cs, index, r);
    H.HeardSame(cs, index, r);
    StillUsable(H.HeardConns(cs, index, r), index);
  }

  lemma StillUsable(cs: seq<Conn>, index: map<int, nat>)
    requires H.Usable(cs, index)
    ensures forall i :: 0 <= i < |cs| ==> cs[i].Valid()
  {
  }

  lemma SentSameClosed(v: Variant, h: H.Host, index: map<int, nat>)
    requires H.Usable(H.Conns(h.table), index)
    ensures AllSameClosed(H.Conns(h.table), H.SentConns(H.Conns(h.table), index, H.Sending(v, h, index).1))
  {
    hide H.Sending;
    var cs, p := H.Conns(h.table), H.Sending(v, h, index).1;
    SendingValid(v, h, index);
    H.SentSame(cs, index, p);
    forall i | 0 <= i < |cs|
      ensures H.SentConns(cs, index, p)[i].Valid()
    {
      assert cs[i].Valid();
    }
  }

  lemma SendingValid(v: Variant, h: H.Host, index: map<int, nat>)
    requires H.Usable(H.Conns(h.table), index)
    ensures H.Sending(v, h, index).1.Valid()
  {
    H.SendingIsValid(h, index);
  }

  lemma PumpSameClosed(v: Variant, h: H.Host, index: map<int, nat>)
    requires H.PumpOk(v, h, index)
    ensures AllSameClosed(H.Conns(h.table), H.Conns(H.Pumped(v, h, index).table))
  {
    hide AllSameClosed, H.Usable, H.TargetThere, H.Hear, H.Reacted, H.HeardConns, H.Sending, H.SentConns;
    var r := H.Hear(v, h, index);
    var h0, h1 := H.Listened(h, index, r), H.Answered(v, h, index);
    HeardSameClosed(H.Conns(h.table), index, r);
    if OrderOf(r.got).Some? {
      ReactedSameClosed(v, h0, OrderOf(r.got).value);
      SameClosedOn(H.Conns(h.table), H.Conns(h0.table), H.Conns(h1.table));
    }
    SentSameClosed(v, h1, index);
    H.OrdersSame(v, h1, H.Sending(v, h1, index).0);
    SameClosedOn(H.Conns(h.table), H.Conns(h1.table),
                 H.SentConns(H.Conns(h1.table), index, H.Sending(v, h1, index).1));
  }

  lemma BehindSameClosed(v: Variant, h: H.Host)
    requires |h.queue| <= QUEUE_SIZE
    ensures AllSameClosed(H.Conns(h.table), H.Conns(H.Behind(v, h).table))
  {
    hide SortUpTo, H.Stops, HandleUpTo, H.PumpOk, H.Pumped, AllSameClosed;
    var cs := H.Conns(h.table);
    SortSameClosed(cs, h.free, |cs|);
    var s := Sort(cs, h.free);
    if !H.Stops(s) {
      HandleSameClosed(
        Handled(s.conns, s.free, s.index, [], QUEUE_SIZE - |h.queue|, false), MAX_STACK_SIZE);
      var d := H.HandledAll(h, s);
      SameClosedOn(cs, s.conns, d.conns);
      var h3 := H.Announced(H.Named(h, s), d);
      if !d.again && H.PumpOk(v, h3, d.index) {
        PumpSameClosed(v, h3, d.index);
        SameClosedOn(cs, d.conns, H.Conns(H.Pumped(v, h3, d.index).table));
      }
    }
  }

  lemma PumpKeepsSlots(v: Variant, h: H.Host, index: map<int, nat>)
    requires H.PumpOk(v, h, index)
    ensures var e := H.Pumped(v, h, index); |e.table| == |h.table| && e.table == H.WithConns(h.table, H.Conns(e.table))
  {
    hide H.Answered, H.Usable, H.Sending, H.SentConns, H.PumpOk, H.FrameEvents;
    H.AnswerKeepsSlots(v, h, index);
    H.OrdersSame(v, H.Answered(v, h, index), H.Sending(v, H.Answered(v, h, index), index).0);
  }

  lemma BehindKeepsSlots(v: Variant, h: H.Host)
    requires |h.queue| <= QUEUE_SIZE
    ensures var e := H.Behind(v, h); |e.table| == |h.table| && e.table == H.WithConns(h.table, H.Conns(e.table))
  {
    hide Sort, H.Stops, H.HandledAll, H.PumpOk, H.Pumped;
    var s := Sort(H.Conns(h.table), h.free);
    if !H.Stops(s) {
      var d := H.HandledAll(h, s);
      var h3 := H.Announced(H.Named(h, s), d);
      if !d.again && H.PumpOk(v, h3, d.index) {
        PumpKeepsSlots(v, h3, d.index);
      }
    }
  }

  /** What an update does behind poll is a step of the third kind. */
  lemma BehindTouches(v: Variant, h: H.Host)
    requires |h.queue| <= QUEUE_SIZE && forall i :: 0 <= i < |h.table| ==> h.table[i].conn.Valid()
    ensures
      var e := H.Behind(v, h);
      |e.table| == |h.table| && forall i :: 0 <= i < |e.table| ==> Touches(h.table[i], e.table[i])
  {
    hide H.Behind, Conn.Valid;
    BehindSameClosed(v, h);
    BehindKeepsSlots(v, h);
    var e := H.Behind(v, h);
    forall i | 0 <= i < |e.table|
      ensures Touches(h.table[i], e.table[i])
    {
      assert SameClosed(H.Conns(h.table)[i], H.Conns(e.table)[i]);
    }
  }

  /** The steps of the manager in one update. */
  function StepsOf(v: Variant, h: H.Host, u: PollInput): seq<Step> {
    if h.strayed || !PollOk(h.table, u) || |h.queue| > QUEUE_SIZE then []
    else [PollStep(u), TouchStep(H.Update(v, h, u).table)]
  }

  lemma UpdateIsSteps(v: Variant, h: H.Host, u: PollInput, m: Manager)
    requires m.table == h.table
    ensures RunTo((x, t) => Next(x, t), m, StepsOf(v, h, u), |StepsOf(v, h, u)|).table == H.Next(v, h, u).table
  {
    hide H.Behind, Poll, PollOk, Touches;
    var f := (x, t) => Next(x, t);
    if !h.strayed && PollOk(h.table, u) && |h.queue| <= QUEUE_SIZE {
      var steps := StepsOf(v, h, u);
      var m1 := Next(m, PollStep(u));
      UpdateTouches(v, h, u);
      assert RunTo(f, m, steps, 0) == m;
      assert RunTo(f, m, steps, 1) == m1;
    }
  }

  lemma UpdateTouches(v: Variant, h: H.Host, u: PollInput)
    requires PollOk(h.table, u) && |h.queue| <= QUEUE_SIZE
    ensures
      var t, t' := Poll(h.table, u).table, H.Update(v, h, u).table;
      |t'| == |t| && forall i :: 0 <= i < |t| ==> Touches(t[i], t'[i])
  {
    hide H.Behind, Poll, PollOk, Conn.Valid;
    PollLeavesValid(h.table, u);
    var t := Poll(h.table, u).table;
    assert forall i :: 0 <= i < |t| ==> t[i] in t;
    if u.completes {
      BehindTouches(v, H.Polled(h, u));
    }
  }

  /** The steps of the manager in a run of updates. */
  function StepsOfRun(v: Variant, h: H.Host, us: seq<PollInput>, n: nat): seq<Step>
    requires n <= |us|
  {
    if n == 0 then [] else StepsOfRun(v, h, us, n - 1) + StepsOf(v, H.Run(v, h, us[..n - 1]), us[n - 1])
  }

  /** The table of the host over a run is that of the manager over these steps. */
  lemma {:induction false} RunIsSteps(v: Variant, h: H.Host, us: seq<PollInput>, n: nat, m: Manager)
    requires n <= |us| && m.table == h.table
    ensures
      var steps := StepsOfRun(v, h, us, n);
      RunTo((x, t) => Next(x, t), m, steps, |steps|).table == H.Run(v, h, us[..n]).table
  {
    hide H.Next, Next, StepsOf;
    var f := (x, t) => Next(x, t);
    if n == 0 {
      assert us[..0] == [];
    } else {
      RunIsSteps(v, h, us, n - 1, m);
      var a := StepsOfRun(v, h, us, n - 1);
      var x := H.Run(v, h, us[..n - 1]);
      var b := StepsOf(v, x, us[n - 1]);
      RunGoesOn(f, m, a, b, |b|, |a + b|);
      UpdateIsSteps(v, x, us[n - 1], RunTo(f, m, a, |a|));
      H.RunOneMore(v, h, us, n);
    }
  }

  /** Over every run of updates, from a table that holds the tunnel alone, and a `destroy_manager`
      behind it: each descriptor is closed exactly as often as it was taken over. */
  lemma UpdatesCloseOnce(v: Variant, h: H.Host, us: seq<PollInput>)
    requires |h.table| == 1 && h.table[0] == AddedSlot(h.table[0].conn, h.table[0].sock)
    requires CanTake(Manager([], [], []), AddStep(h.table[0].conn, h.table[0].sock))
    ensures
      var m := Run(Manager([], [], []), [AddStep(h.table[0].conn, h.table[0].sock)] + StepsOfRun(v, h, us, |us|));
      && m.table == H.Run(v, h, us).table
      && multiset(m.closed + DestroyedFds(m.table, |m.table|)) == multiset(m.added)
  {
    hide H.Run, StepsOfRun, DestroyedFds;
    var f := (x, t) => Next(x, t);
    var m, first := Manager([], [], []), [AddStep(h.table[0].conn, h.table[0].sock)];
    var steps := StepsOfRun(v, h, us, |us|);
    EveryDescriptorClosedOnce(first + steps);
    assert RunTo(f, m, first, 0) == m;
    var m1 := RunTo(f, m, first, 1);
    assert m1.table == h.table;
    RunGoesOn(f, m, first, steps, |steps|, |first + steps|);
    RunIsSteps(v, h, us, |us|, m1);
    assert us[..|us|] == us;
  }
}
