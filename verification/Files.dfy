/** A file as read sees it: every call may give back fewer bytes than it was asked for, and none
    only at the end. */
module Files {
  import opened Basics

  const NEWLINE: byte := 10

  class File {
    const content: seq<byte>
    var pos: nat

    ghost predicate Valid()
      reads this
    {
      pos <= |content|
    }

    constructor (content: seq<byte>)
      ensures Valid() && this.content == content && pos == 0
    {
      this.content := content;
      pos := 0;
    }

    /** How many bytes a call delivers, from one to all that fit, or -1 for an error. */
    method Choose(max: nat) returns (n: int)
      ensures n == -1 || (0 <= n <= max && (max > 0 ==> n > 0))
    {
      n := *;
      if n < -1 || n > max || (n == 0 && max > 0) {
        n := max;
      }
    }

    /** `read`. */
    method Read(buf: array<byte>) returns (n: int)
      requires Valid() && buf.Length > 0
      modifies this`pos, buf
      ensures Valid() && -1 <= n <= buf.Length
      ensures n == -1 ==> pos == old(pos)
      ensures n >= 0 ==> pos == old(pos) + n && buf[..n] == content[old(pos)..pos]
      ensures n == 0 ==> pos == |content|
      ensures n >= 0 ==> buf[n..] == old(buf[n..])
    {
      n := Choose(Min(buf.Length, |content| - pos));
      if n > 0 {
        for i := 0 to n
          modifies buf
          invariant buf[..i] == content[pos..pos + i] && buf[n..] == old(buf[n..])
        {
          buf[i] := content[pos + i];
        }
        pos := pos + n;
      }
    }
  }
}
