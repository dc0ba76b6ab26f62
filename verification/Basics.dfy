/** Types shared by every model. */
module Basics {
  type byte = b: int | 0 <= b < 256

  datatype Option<+T> = None | Some(value: T)

  /** A protocol command with its connection identifier, `struct command`. */
  datatype Command = Command(cmd: byte, arg: byte)

  /** The place `k` steps behind place `from` on a circle of `n` places. */
  function Turn(n: nat, from: nat, k: nat): nat {
    if from + k < n then from + k else from + k - n
  }

  /** `length` elements of a circular store, from place `offset` on. */
  function Around<T>(store: seq<T>, offset: nat, length: nat): (s: seq<T>)
    requires length <= |store| && (offset < |store| || offset == 0)
  {
    seq(length, k requires 0 <= k < length => store[Turn(|store|, offset, k)])
  }

  lemma ModIsOneTurn(x: nat, n: nat)
    requires x < n + n
    ensures x % n == if x < n then x else x - n
  {
    if x >= n {
      assert x == n * 1 + (x - n);
    }
  }

  function Min(a: nat, b: nat): nat {
    if a <= b then a else b
  }

  function One(b: bool): nat {
    if b then 1 else 0
  }

  /** How often `d` occurs. */
  function Times(s: seq<int>, d: int): nat {
    multiset(s)[d]
  }

  lemma TimesConcat(a: seq<int>, b: seq<int>, d: int)
    ensures Times(a + b, d) == Times(a, d) + Times(b, d)
  {
  }

  lemma TimesOne(x: int, d: int)
    ensures Times([x], d) == One(x == d) && Times([], d) == 0
  {
  }
}
