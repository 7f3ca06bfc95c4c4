/** Quotients and remainders by a variable divisor. */
module DivMod {
  lemma MulMono(a: int, b: int, n: nat)
    requires a <= b
    ensures a * n <= b * n
  {
    assert (b - a) * n >= 0;
  }

  lemma DivModUnique(q: nat, r: nat, n: nat)
    requires r < n
    ensures (q * n + r) / n == q && (q * n + r) % n == r
  {
    var x := q * n + r;
    assert x == (x / n) * n + x % n;
    if x / n >= q + 1 {
      MulMono(q + 1, x / n, n);
    } else if x / n <= q - 1 {
      MulMono(x / n, q - 1, n);
    }
  }
}

/** Positions in a ring of `n` slots. */
module Ring {
  import opened DivMod

  /** The slot `k` places after slot `r`. */
  function At(r: nat, k: nat, n: nat): (i: nat)
    requires r < n && k <= n
    ensures i < n
  {
    if r + k < n then r + k else r + k - n
  }

  /** The remainder the code computes. */
  lemma Mod(r: nat, k: nat, n: nat)
    requires r < n && k <= n
    ensures (r + k) % n == At(r, k, n)
  {
    if r + k < n {
      DivModUnique(0, r + k, n);
    } else {
      DivModUnique(1, r + k - n, n);
    }
  }

  lemma Step(i: nat, n: nat)
    requires i < n
    ensures (i + 1) % n == At(i, 1, n)
  {
    Mod(i, 1, n);
  }

  /** Moving on, seen from the front and from the back. */
  lemma AtStep(r: nat, k: nat, n: nat)
    requires r < n && k < n
    ensures At(At(r, k, n), 1, n) == At(r, k + 1, n) == At(At(r, 1, n), k, n)
  {
  }

  lemma AtDistinct(r: nat, j: nat, k: nat, n: nat)
    requires r < n && j < n && k < n && j != k
    ensures At(r, j, n) != At(r, k, n)
  {
  }
}

/** The ring buffer of `fifo.c` as a queue. */
module Fifo {
  import opened Ring

  class Fifo<T(0)> {
    const data: array<T>
    var num: nat
    var rptr: nat
    var wptr: nat

    ghost predicate Valid()
      reads this
    {
      && data.Length > 0 && num <= data.Length && rptr < data.Length && wptr == At(rptr, num, data.Length)
    }

    /** The queue, oldest element first. */
    ghost function Contents(): (s: seq<T>)
      reads this, data
      requires Valid()
      ensures |s| == num
    {
      seq(num, k requires 0 <= k < num reads this, data requires Valid() => data[At(rptr, k, data.Length)])
    }

    constructor (depth: nat)
      requires depth > 0
      ensures Valid() && fresh(data) && data.Length == depth && Contents() == []
    {
      data := new T[depth];
      num, rptr, wptr := 0, 0, 0;
    }

    /** A push on a full queue is a check failure in the source. */
    method Push(x: T)
      requires Valid() && num < data.Length
      modifies this, data
      ensures Valid() && Contents() == old(Contents()) + [x]
    {
      ghost var n := data.Length;
      data[wptr] := x;
      Step(wptr, n);
      AtStep(rptr, num, n);
      forall k | 0 <= k < num
        ensures data[At(rptr, k, n)] == old(data[At(rptr, k, n)])
      {
        AtDistinct(rptr, k, num, n);
      }
      num := num + 1;
      wptr := (wptr + 1) % data.Length;
    }

    method Pop() returns (x: T)
      requires Valid() && num > 0
      modifies this
      ensures Valid() && old(Contents()) == [x] + Contents()
    {
      ghost var n := data.Length;
      x := data[rptr];
      Step(rptr, n);
      forall k | 0 <= k < num
        ensures k > 0 ==> At(rptr, k, n) == At(At(rptr, 1, n), k - 1, n)
      {
        if k > 0 {
          AtStep(rptr, k - 1, n);
        }
      }
      AtStep(rptr, num - 1, n);
      num := num - 1;
      rptr := (rptr + 1) % data.Length;
    }

    method Front() returns (x: T)
      requires Valid() && num > 0
      ensures x == Contents()[0]
    {
      x := data[rptr];
    }

    /** Drops everything but keeps the write position. */
    method Clear()
      requires Valid()
      modifies this
      ensures Valid() && Contents() == [] && wptr == old(wptr)
    {
      num := 0;
      rptr := wptr;
    }

    method Reset()
      requires Valid()
      modifies this
      ensures Valid() && Contents() == [] && wptr == 0
    {
      num, rptr, wptr := 0, 0, 0;
    }
  }
}
