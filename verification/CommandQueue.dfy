/** The circular queue of command_queue.c. */
module CommandQueues {
  import opened Basics

  /** CMD_NOP, what an empty queue gives out. */
  const NOP := Command(0, 0)

  class CommandQueue {
    const queue: array<Command>
    var offset: nat
    var length: nat

    ghost predicate Valid()
      reads this
    {
      length <= queue.Length && offset < queue.Length
    }

    /** The waiting commands, oldest first. */
    ghost function Waiting(): seq<Command>
      requires Valid()
      reads this, queue
    {
      Around(queue[..], offset, length)
    }

    constructor (cap: nat)
      requires cap > 0
      ensures Valid() && fresh(queue) && queue.Length == cap && Waiting() == []
    {
      queue := new Command[cap](_ => NOP);
      offset, length := 0, 0;
    }

    /** A capacity of 0 is refused. */
    static method Make(cap: nat) returns (q: CommandQueue?)
      ensures q == null <==> cap == 0
      ensures q != null ==> fresh(q) && fresh(q.queue) && q.Valid() && q.queue.Length == cap
      ensures q != null ==> q.Waiting() == []
    {
      if cap == 0 {
        return null;
      }
      q := new CommandQueue(cap);
    }

    method Length() returns (n: nat)
      requires Valid()
      ensures n == |Waiting()|
    {
      n := length;
    }

    method Enqueue(c: Command) returns (ok: bool)
      requires Valid()
      modifies this, queue
      ensures Valid() && ok == (old(length) < queue.Length)
      ensures Waiting() == old(Waiting()) + if ok then [c] else []
    {
      if length == queue.Length {
        return false;
      }
      ModIsOneTurn(offset + length, queue.Length);
      queue[(offset + length) % queue.Length] := c;
      length := length + 1;
      return true;
    }

    method Dequeue() returns (c: Command)
      requires Valid()
      modifies this
      ensures Valid()
      ensures if old(Waiting()) == [] then c == NOP && Waiting() == []
              else [c] + Waiting() == old(Waiting())
    {
      if length == 0 {
        return NOP;
      }
      c := queue[offset];
      offset := offset + 1;
      if offset >= queue.Length {
        ModIsOneTurn(offset, queue.Length);
        offset := offset % queue.Length;
      }
      length := length - 1;
    }
  }
}
