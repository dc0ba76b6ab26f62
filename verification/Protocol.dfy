/** The connection protocol of controller.c on values: identifiers from a stack, the commands
    that announce what happened to a connection, and the reaction to the peer's commands. */
module Protocol {
  import opened Basics
  import opened Ring
  import opened Connections

  const CMD_NEW: byte := 1
  const CMD_CLOSE: byte := 2
  const CMD_CLOSE_SRC_TO_DST: byte := 3
  const CMD_CLOSE_DST_TO_SRC: byte := 4
  const CMD_ACK: byte := 5

  const MAX_STACK_SIZE := 255
  const QUEUE_SIZE := 512

  // ---------------------------------------------------------------- the stack of free identifiers

  function InitialIds(): seq<int> {
    seq(MAX_STACK_SIZE, i => MAX_STACK_SIZE - i)
  }

  /** `id_stack_push`: an overflow is reported and ignored. */
  function Push(free: seq<int>, id: int): seq<int> {
    if |free| == MAX_STACK_SIZE then free else free + [id]
  }

  // ---------------------------------------------------------------- sort_connections

  /** The connections, the stack, and the place of each identified connection. */
  datatype Sorted = Sorted(conns: seq<Conn>, free: seq<int>, index: map<int, nat>)

  predicate NeedsId(c: Conn) {
    c.id < 0 || c.id > 256
  }

  function SetId(c: Conn, id: int): Conn {
    Conn(id, c.state, c.inState, c.outState, c.inb, c.outb)
  }

  function SortStep(s: Sorted, i: nat): (s': Sorted)
    requires i < |s.conns| && forall k :: k in s.index ==> s.index[k] < |s.conns|
    ensures |s'.conns| == |s.conns| && forall k :: k in s'.index ==> s'.index[k] < |s'.conns|
  {
    var c := s.conns[i];
    if !NeedsId(c) then Sorted(s.conns, s.free, s.index[c.id := i])
    else if s.free == [] then s
    else
      var id := s.free[|s.free| - 1];
      Sorted(s.conns[i := SetId(c, id)], s.free[..|s.free| - 1], s.index[id := i])
  }

  /** After the first `n` connections. */
  function SortUpTo(conns: seq<Conn>, free: seq<int>, n: nat): (s: Sorted)
    requires n <= |conns|
    ensures |s.conns| == |conns| && forall k :: k in s.index ==> s.index[k] < |s.conns|
  {
    if n == 0 then Sorted(conns, free, map[]) else SortStep(SortUpTo(conns, free, n - 1), n - 1)
  }

  function Sort(conns: seq<Conn>, free: seq<int>): (s: Sorted)
    ensures |s.conns| == |conns| && forall k :: k in s.index ==> s.index[k] < |s.conns|
  {
    SortUpTo(conns, free, |conns|)
  }

  // ---------------------------------------------------------------- handle_state_changes

  predicate ShouldCloseConnection(c: Conn) {
    c.inb.length == 0 && c.outb.length == 0 && c.state.closed
  }

  predicate ShouldCloseIn(c: Conn) {
    !c.inState.delete && c.inb.length == 0 && c.inState.closed
  }

  predicate ShouldCloseOut(c: Conn) {
    !c.outState.delete && c.outb.length == 0 && c.outState.closed
  }

  function SetState(c: Conn, f: Flags): Conn {
    Conn(c.id, f, c.inState, c.outState, c.inb, c.outb)
  }

  function SetInState(c: Conn, f: Flags): Conn {
    Conn(c.id, c.state, f, c.outState, c.inb, c.outb)
  }

  function SetOutState(c: Conn, f: Flags): Conn {
    Conn(c.id, c.state, c.inState, f, c.inb, c.outb)
  }

  /** What became of a connection when it was looked at: the commands it queued, whether it left
      the table of the pump, and whether the queue was full (`STATE_AGAIN`). */
  datatype Reaction = Reaction(conn: Conn, said: seq<byte>, gone: bool, again: bool)

  /** First the greeting of a new connection; `room` is the free space of the queue. */
  function Greet(c: Conn, room: nat): (r: Reaction)
    ensures |r.said| <= room && !r.gone
  {
    if !c.state.isNew then Reaction(c, [], false, false)
    else if room == 0 then Reaction(c, [], false, true)
    else Reaction(SetState(c, c.state.(isNew := false, stopped := true)), [CMD_NEW], false, false)
  }

  function AnnounceIn(c: Conn, room: nat): (r: Reaction)
    ensures |r.said| <= room
  {
    if !ShouldCloseIn(c) then Reaction(c, [], false, false)
    else if room == 0 then Reaction(c, [], false, true)
    else Reaction(SetInState(c, c.inState.(delete := true)), [CMD_CLOSE_SRC_TO_DST], false, false)
  }

  function AnnounceOut(c: Conn, room: nat): (r: Reaction)
    ensures |r.said| <= room
  {
    if !ShouldCloseOut(c) then Reaction(c, [], false, false)
    else if room == 0 then Reaction(c, [], false, true)
    else Reaction(SetOutState(c, c.outState.(delete := true)), [CMD_CLOSE_DST_TO_SRC], false, false)
  }

  /** Then what its socket did. */
  function Announce(c: Conn, room: nat): (r: Reaction)
    ensures |r.said| <= room
  {
    if ShouldCloseConnection(c) then
      if room == 0 then Reaction(c, [], false, true)
      else Reaction(SetState(c, c.state.(delete := true)), [CMD_CLOSE], true, false)
    else
      var first := AnnounceIn(c, room);
      if first.again then first
      else
        var second := AnnounceOut(first.conn, room - |first.said|);
        Reaction(second.conn, first.said + second.said, false, second.again)
  }

  function React(c: Conn, room: nat): (r: Reaction)
    ensures |r.said| <= room
  {
    var g := Greet(c, room);
    if g.again then g
    else
      var a := Announce(g.conn, room - |g.said|);
      Reaction(a.conn, g.said + a.said, a.gone, a.again)
  }

  /** The commands with the identifier as it goes into a byte. */
  function Said(bytes: seq<byte>, id: int): seq<Command> {
    seq(|bytes|, i requires 0 <= i < |bytes| => Command(bytes[i], id % 256))
  }

  /** `handle_state_changes` under way; `said` are the commands it has queued, for which there
      was room for `room`. */
  datatype Handled = Handled(
    conns: seq<Conn>, free: seq<int>, index: map<int, nat>, said: seq<Command>, room: nat, again: bool)
  {
    predicate Valid() {
      |said| <= room && forall i :: i in index ==> index[i] < |conns|
    }
  }

  /** The body of the loop for identifier `i`. */
  function HandleStep(h: Handled, accepting: bool, i: int): (h': Handled)
    requires h.Valid()
    ensures h'.Valid() && |h'.conns| == |h.conns|
  {
    if h.again || i !in h.index then h
    else
      var c := h.conns[h.index[i]];
      var r := React(c, h.room - |h.said|);
      Handled(h.conns[h.index[i] := r.conn],
              if r.gone && accepting then Push(h.free, c.id) else h.free,
              if r.gone then h.index - {i} else h.index,
              h.said + Said(r.said, c.id), h.room, r.again)
  }

  /** After identifiers 1 to `n`. */
  function HandleUpTo(h: Handled, accepting: bool, n: nat): (h': Handled)
    requires h.Valid()
    ensures h'.Valid() && |h'.conns| == |h.conns|
  {
    if n == 0 then h else HandleStep(HandleUpTo(h, accepting, n - 1), accepting, n)
  }

  /** The tunnel, connection 0, is not usable any more (`STATE_SHUTDOWN`). */
  predicate TunnelClosed(c: Conn) {
    c.state.closed || c.inState.closed || c.outState.closed
  }

  // ---------------------------------------------------------------- on_command

  /** The first connection with the identifier, from place `i` on. */
  function Find(conns: seq<Conn>, id: int, i: nat): (p: Option<nat>)
    requires i <= |conns|
    ensures p.Some? ==> i <= p.value < |conns| && conns[p.value].id == id
    ensures p.Some? ==> forall j :: i <= j < p.value ==> conns[j].id != id
    ensures p.None? ==> forall j :: i <= j < |conns| ==> conns[j].id != id
    decreases |conns| - i
  {
    if i == |conns| then None
    else if conns[i].id == id then Some(i)
    else Find(conns, id, i + 1)
  }

  /** `send_command`: a full queue refuses, which `on_command` only reports. */
  function Enqueue(queue: seq<Command>, c: Command): seq<Command> {
    if |queue| < QUEUE_SIZE then queue + [c] else queue
  }

  /** The state that `on_command` works on. */
  datatype Control = Control(conns: seq<Conn>, free: seq<int>, queue: seq<Command>)

  /** A command about the connection at place `p`. With the correction an identifier goes back to
      the stack only if the connection was not marked before. */
  function Apply(v: Variant, accepting: bool, k: Control, cmd: byte, p: nat): Control
    requires p < |k.conns|
  {
    var c := k.conns[p];
    if cmd == CMD_CLOSE then
      Control(k.conns[p := SetState(c, c.state.(delete := true))],
              if accepting && (v.Shipped? || !c.state.delete) then Push(k.free, c.id) else k.free,
              k.queue)
    else if cmd == CMD_CLOSE_SRC_TO_DST then
      Control(k.conns[p := SetOutState(c, c.outState.(delete := true))], k.free, k.queue)
    else if cmd == CMD_CLOSE_DST_TO_SRC then
      Control(k.conns[p := SetInState(c, c.inState.(delete := true))], k.free, k.queue)
    else if cmd == CMD_ACK then
      Control(k.conns[p := SetState(c, c.state.(stopped := false))], k.free, k.queue)
    else k
  }

  /** `on_command`; `made` is the connection `cm_connect` makes, if it succeeds. */
  function OnCommand(v: Variant, accepting: bool, k: Control, c: Command, made: Option<Conn>): Control {
    var p := Find(k.conns, c.arg, 0);
    if c.cmd == CMD_NEW then
      if p.Some? then k
      else if made.Some? then
        Control(k.conns + [made.value], k.free, Enqueue(k.queue, Command(CMD_ACK, c.arg)))
      else Control(k.conns, k.free, Enqueue(k.queue, Command(CMD_CLOSE, c.arg)))
    else if p.None? then k
    else Apply(v, accepting, k, c.cmd, p.value)
  }
}
