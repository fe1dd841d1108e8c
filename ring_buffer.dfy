/**
 * The read-before-write ring buffer shared by the delay line of Tsumiki.Core/Delay.cs
 * and the sample delay of Tsumiki/Sample.cs. Write m of a run stores xs[m] in slot
 * (a + m) % d, and the value read at step n is the slot's content just before that
 * step's write; a run therefore returns its input delayed by d steps.
 */
module RingBuffer {
  import opened Common

  /** The buffer after the first n writes. */
  function Written(buf0: seq<real>, a: int, d: int, xs: seq<real>, n: nat): (b: seq<real>)
    requires 1 <= d <= |buf0| && n <= |xs|
    ensures |b| == |buf0|
    decreases n
  {
    if n == 0 then buf0 else Written(buf0, a, d, xs, n - 1)[(a + n - 1) % d := xs[n - 1]]
  }

  /** The values a run reads: at step n, slot (a + n) % d before the write. */
  function Delayed(buf0: seq<real>, a: int, d: int, xs: seq<real>): (ys: seq<real>)
    requires 1 <= d <= |buf0|
    ensures |ys| == |xs|
  {
    seq(|xs|, n requires 0 <= n < |xs| => Written(buf0, a, d, xs, n)[(a + n) % d])
  }

  /** Two steps fewer than d apart use different slots. */
  lemma DistinctSlots(a: int, d: int, m: int, n: int)
    requires d >= 1 && m < n < m + d
    ensures (a + m) % d != (a + n) % d
  {
    var q1, q2 := (a + m) / d, (a + n) / d;
    if (a + m) % d == (a + n) % d {
      var k := q2 - q1;
      assert k * d == n - m;
      if k >= 1 {
        MulAtLeast(k, d);
      }
      assert false;
    }
  }

  /** Moving d steps back leaves the slot unchanged. */
  lemma SlotPeriodic(x: int, d: int)
    requires d >= 1
    ensures (x - d) % d == x % d
  {
    DivModUnique(x - d, d, x / d - 1, x % d);
  }

  /**
   * After n writes, each of the last d writes is still in its slot, and every slot
   * that no write has reached yet still holds its initial value.
   */
  lemma {:induction false} WrittenWindow(buf0: seq<real>, a: int, d: int, xs: seq<real>, n: nat, m: int)
    requires 1 <= d <= |buf0| && n <= |xs| && 0 <= m
    ensures n - d <= m < n ==> Written(buf0, a, d, xs, n)[(a + m) % d] == xs[m]
    ensures n <= m < d ==> Written(buf0, a, d, xs, n)[(a + m) % d] == buf0[(a + m) % d]
    decreases n
  {
    if n > 0 {
      WrittenWindow(buf0, a, d, xs, n - 1, m);
      if m < n - 1 && n - d <= m {
        DistinctSlots(a, d, m, n - 1);
      } else if n <= m < d {
        DistinctSlots(a, d, n - 1, m);
      }
    }
  }

  /** Step n reads the input of step n - d, or the initial content during the first d steps. */
  lemma RingDelay(buf0: seq<real>, a: int, d: int, xs: seq<real>, n: nat)
    requires 1 <= d <= |buf0| && n < |xs|
    ensures Delayed(buf0, a, d, xs)[n] == if n >= d then xs[n - d] else buf0[(a + n) % d]
  {
    if n >= d {
      WrittenWindow(buf0, a, d, xs, n, n - d);
      SlotPeriodic(a + n, d);
      assert a + (n - d) == a + n - d;
    } else {
      WrittenWindow(buf0, a, d, xs, n, n);
    }
  }

  /** The run's reads, element by element. */
  lemma DelayedByD(buf0: seq<real>, a: int, d: int, xs: seq<real>)
    requires 1 <= d <= |buf0|
    ensures forall n :: d <= n < |xs| ==> Delayed(buf0, a, d, xs)[n] == xs[n - d]
    ensures forall n :: 0 <= n < d && n < |xs| ==> Delayed(buf0, a, d, xs)[n] == buf0[(a + n) % d]
  {
    forall n | 0 <= n < |xs|
      ensures Delayed(buf0, a, d, xs)[n] == if n >= d then xs[n - d] else buf0[(a + n) % d]
    {
      RingDelay(buf0, a, d, xs, n);
    }
  }

  /** Reducing the start of a sum modulo d does not change the slot. */
  lemma ModOfSum(a: int, m: int, d: int)
    requires d >= 1
    ensures (a + m) % d == (a % d + m) % d
  {
    var q, r := (a % d + m) / d, (a % d + m) % d;
    assert a % d + m == q * d + r;
    assert a + m == (a / d + q) * d + r;
    DivModUnique(a + m, d, a / d + q, r);
  }

  /** A run after its first write is a run on the written buffer, started one slot later. */
  lemma {:induction false} WrittenShift(buf: seq<real>, a: int, a': int, d: int, xs: seq<real>, n: nat)
    requires 1 <= d <= |buf| && n + 1 <= |xs| && (a + 1) % d == a' % d
    ensures Written(buf, a, d, xs, n + 1) == Written(buf[a % d := xs[0]], a', d, xs[1..], n)
    decreases n
  {
    if n > 0 {
      WrittenShift(buf, a, a', d, xs, n - 1);
      ModOfSum(a + 1, n - 1, d);
      ModOfSum(a', n - 1, d);
      assert a + (n + 1) - 1 == (a + 1) + (n - 1);
    }
  }

  /** The first read of a run, followed by the run from the next slot on the written buffer. */
  lemma DelayedSplit(buf: seq<real>, a: int, d: int, xs: seq<real>)
    requires 1 <= d <= |buf| && |xs| >= 1
    ensures Delayed(buf, a, d, xs) == [buf[a % d]] + Delayed(buf[a % d := xs[0]], a % d + 1, d, xs[1..])
  {
    var lhs := Delayed(buf, a, d, xs);
    var rhs := [buf[a % d]] + Delayed(buf[a % d := xs[0]], a % d + 1, d, xs[1..]);
    ModOfSum(a, 1, d);
    forall n | 1 <= n < |xs|
      ensures lhs[n] == rhs[n]
    {
      WrittenShift(buf, a, a % d + 1, d, xs, n - 1);
      ModOfSum(a, n, d);
      assert a % d + 1 + (n - 1) == a % d + n;
    }
    assert lhs[0] == rhs[0];
  }

  /** Starts that agree modulo d write the same slots. */
  lemma {:induction false} WrittenCongruent(buf: seq<real>, a: int, a': int, d: int, xs: seq<real>, n: nat)
    requires 1 <= d <= |buf| && n <= |xs| && a % d == a' % d
    ensures Written(buf, a, d, xs, n) == Written(buf, a', d, xs, n)
    decreases n
  {
    if n > 0 {
      WrittenCongruent(buf, a, a', d, xs, n - 1);
      ModOfSum(a, n - 1, d);
      ModOfSum(a', n - 1, d);
    }
  }

  /** Writing xs and then ys is one run over xs + ys. */
  lemma {:induction false} WrittenConcat(buf: seq<real>, a: int, d: int, xs: seq<real>, ys: seq<real>, n: nat)
    requires 1 <= d <= |buf| && n <= |ys|
    ensures Written(buf, a, d, xs + ys, |xs| + n) == Written(Written(buf, a, d, xs, |xs|), a + |xs|, d, ys, n)
    decreases n
  {
    if n == 0 {
      WrittenPrefix(buf, a, d, xs + ys, xs, |xs|);
    } else {
      WrittenConcat(buf, a, d, xs, ys, n - 1);
      assert (xs + ys)[|xs| + n - 1] == ys[n - 1];
      assert a + (|xs| + n) - 1 == a + |xs| + n - 1;
    }
  }

  /** Only the first n inputs matter for the first n writes. */
  lemma {:induction false} WrittenPrefix(buf: seq<real>, a: int, d: int, xs: seq<real>, ys: seq<real>, n: nat)
    requires 1 <= d <= |buf| && n <= |xs| && n <= |ys| && xs[..n] == ys[..n]
    ensures Written(buf, a, d, xs, n) == Written(buf, a, d, ys, n)
    decreases n
  {
    if n > 0 {
      assert xs[..n - 1] == ys[..n - 1] by {
        assert xs[..n - 1] == xs[..n][..n - 1];
        assert ys[..n - 1] == ys[..n][..n - 1];
      }
      assert xs[n - 1] == xs[..n][n - 1];
      assert ys[n - 1] == ys[..n][n - 1];
      WrittenPrefix(buf, a, d, xs, ys, n - 1);
    }
  }

  /**
   * A run over xs + ys reads what a run over xs reads, followed by what a run over ys
   * reads when it continues from the buffer and the slot where the first run stopped.
   */
  lemma DelayedConcat(buf: seq<real>, a: int, d: int, xs: seq<real>, ys: seq<real>)
    requires 1 <= d <= |buf|
    ensures Delayed(buf, a, d, xs + ys) ==
              Delayed(buf, a, d, xs) + Delayed(Written(buf, a, d, xs, |xs|), (a + |xs|) % d, d, ys)
  {
    var lhs := Delayed(buf, a, d, xs + ys);
    var mid := Written(buf, a, d, xs, |xs|);
    var rhs := Delayed(buf, a, d, xs) + Delayed(mid, (a + |xs|) % d, d, ys);
    forall n | 0 <= n < |xs| + |ys|
      ensures lhs[n] == rhs[n]
    {
      if n < |xs| {
        assert (xs + ys)[..n] == xs[..n];
        WrittenPrefix(buf, a, d, xs + ys, xs, n);
      } else {
        var k := n - |xs|;
        WrittenConcat(buf, a, d, xs, ys, k);
        ModOfSum(a + |xs|, 0, d);
        WrittenCongruent(mid, a + |xs|, (a + |xs|) % d, d, ys, k);
        ModOfSum(a + |xs|, k, d);
        assert a + n == a + |xs| + k;
      }
    }
  }
}
