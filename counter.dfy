/** The example `Counter` implementation: a single `int64` that `Add` and
    `Sub` update in place and `Total` reads. Go's signed integer arithmetic
    wraps around modulo 2^64, and so does the model. */
module Counters {

  const TWO64: int := 0x1_0000_0000_0000_0000
  const MIN64: int := -0x8000_0000_0000_0000
  const MAX64: int := 0x7fff_ffff_ffff_ffff

  predicate IsInt64(x: int) {
    MIN64 <= x <= MAX64
  }

  /** The `int64` Go stores for the mathematical result `x`: the one value in
      range that agrees with `x` modulo 2^64. */
  function Wrap64(x: int): (r: int)
    ensures IsInt64(r)
    ensures (x - r) % TWO64 == 0
    ensures IsInt64(x) ==> r == x
  {
    (x - MIN64) % TWO64 + MIN64
  }

  lemma WrapShift(x: int, q: int)
    ensures Wrap64(x + q * TWO64) == Wrap64(x)
  {
  }

  /** Wrapping an intermediate result does not change the final one. */
  lemma WrapAbsorb(a: int, b: int)
    ensures Wrap64(Wrap64(a) + b) == Wrap64(a + b)
  {
    var q := (a - MIN64) / TWO64;
    assert Wrap64(a) == a - q * TWO64;
    WrapShift(a + b, -q);
  }

  // ---------------------------------------------------------------------
  // The Go struct `counter`, as a class.

  /** `counter`: the struct behind the `Counter` interface. */
  class Counter {
    var val: int

    /** `NewCounter(start)`. */
    constructor (start: int)
      requires IsInt64(start)
      ensures val == start
    {
      val := start;
    }

    /** `Add(v)`: `c.val += v`, then the new value. */
    method Add(v: int) returns (r: int)
      requires IsInt64(v)
      modifies this
      ensures val == Effect(old(val), AddCall(v))
      ensures r == val
    {
      val := Wrap64(val + v);
      r := val;
    }

    /** `Sub(v)`: `c.val -= v`, then the new value. */
    method Sub(v: int) returns (r: int)
      requires IsInt64(v)
      modifies this
      ensures val == Effect(old(val), SubCall(v))
      ensures r == val
    {
      val := Wrap64(val - v);
      r := val;
    }

    /** `Total()`: the stored value; nothing changes. */
    method Total() returns (r: int)
      ensures r == val
    {
      r := val;
    }
  }

  // ---------------------------------------------------------------------
  // The same counter as a function of the calls made on it.

  /** A call on the `Counter` interface. */
  datatype Call = AddCall(v: int) | SubCall(v: int) | TotalCall

  predicate WellTyped(c: Call) {
    match c
    case AddCall(v) => IsInt64(v)
    case SubCall(v) => IsInt64(v)
    case TotalCall => true
  }

  /** The stored value after one call; every call returns exactly this. On an
      `int64` value the result is again one, and is exact when the
      mathematical sum or difference is in range. */
  function Effect(x: int, c: Call): (r: int)
    ensures IsInt64(x) ==> IsInt64(r)
    ensures c.AddCall? && IsInt64(x + c.v) ==> r == x + c.v
    ensures c.SubCall? && IsInt64(x - c.v) ==> r == x - c.v
    ensures c.TotalCall? && IsInt64(x) ==> r == x
  {
    match c
    case AddCall(v) => Wrap64(x + v)
    case SubCall(v) => Wrap64(x - v)
    case TotalCall => Wrap64(x)
  }

  /** The stored value after the calls, made one after another. */
  function Final(x: int, calls: seq<Call>): int
  {
    if calls == [] then x
    else Effect(Final(x, calls[..|calls| - 1]), calls[|calls| - 1])
  }

  /** What each of the calls returns, in order. */
  function Replies(x: int, calls: seq<Call>): (r: seq<int>)
    ensures |r| == |calls|
  {
    if calls == [] then []
    else Replies(x, calls[..|calls| - 1]) + [Final(x, calls)]
  }

  /** How much a call moves the counter, before wrap-around. */
  function Delta(c: Call): int {
    match c
    case AddCall(v) => v
    case SubCall(v) => -v
    case TotalCall => 0
  }

  function Net(calls: seq<Call>): int
  {
    if calls == [] then 0 else Net(calls[..|calls| - 1]) + Delta(calls[|calls| - 1])
  }

  /** `Add(v)` then `Sub(v)` gives back the value it started from, even when
      the addition wraps around. */
  lemma AddThenSubRestores(x: int, v: int)
    requires IsInt64(x)
    ensures Effect(Effect(x, AddCall(v)), SubCall(v)) == x
  {
    WrapAbsorb(x + v, -v);
  }

  /** The value after any sequence of calls is the start moved by their net
      amount, wrapped once. */
  lemma {:induction false} FinalIsNet(x: int, calls: seq<Call>)
    requires IsInt64(x)
    ensures Final(x, calls) == Wrap64(x + Net(calls))
  {
    if calls != [] {
      var n := |calls| - 1;
      FinalIsNet(x, calls[..n]);
      WrapAbsorb(x + Net(calls[..n]), Delta(calls[n]));
    }
  }

  /** Each reply is the value after the calls up to and including it. */
  lemma {:induction false} RepliesAreFinals(x: int, calls: seq<Call>, k: int)
    requires 0 <= k < |calls|
    ensures Replies(x, calls)[k] == Final(x, calls[..k + 1])
  {
    var n := |calls| - 1;
    if k < n {
      RepliesAreFinals(x, calls[..n], k);
      assert calls[..n][..k + 1] == calls[..k + 1];
    } else {
      assert calls[..k + 1] == calls;
    }
  }

  lemma {:induction false} NetConcat(a: seq<Call>, b: seq<Call>)
    ensures Net(a + b) == Net(a) + Net(b)
  {
    if b != [] {
      var n := |b| - 1;
      assert (a + b)[..|a + b| - 1] == a + b[..n];
      NetConcat(a, b[..n]);
    } else {
      assert a + b == a;
    }
  }

  /** Taking one call out of a sequence takes its amount out of the net. */
  lemma NetRemove(b: seq<Call>, i: int)
    requires 0 <= i < |b|
    ensures Net(b) == Net(b[..i] + b[i + 1..]) + Delta(b[i])
  {
    var p, q := b[..i], b[i + 1..];
    assert b[..i + 1][..i] == p;
    assert Net(b[..i + 1]) == Net(p) + Delta(b[i]);
    assert b == b[..i + 1] + q;
    NetConcat(b[..i + 1], q);
    NetConcat(p, q);
  }

  /** The net amount does not depend on the order of the calls. */
  lemma {:induction false} NetPermutation(a: seq<Call>, b: seq<Call>)
    requires multiset(a) == multiset(b)
    ensures Net(a) == Net(b)
  {
    if a != [] {
      var n := |a| - 1;
      var c := a[n];
      assert a == a[..n] + [c];
      assert c in multiset(b);
      var i :| 0 <= i < |b| && b[i] == c;
      var rest := b[..i] + b[i + 1..];
      assert multiset(rest) == multiset(b) - multiset{c} by {
        assert b == b[..i] + [c] + b[i + 1..];
      }
      assert multiset(a[..n]) == multiset(a) - multiset{c};
      NetPermutation(a[..n], rest);
      NetRemove(b, i);
    }
  }

  // ---------------------------------------------------------------------
  // The workload of `TestExampleCounterAgent`.

  /** One worker's calls: `Add(1)` on even steps, `Sub(1)` on odd ones. */
  function Alternation(n: nat): (r: seq<Call>)
    ensures |r| == n
  {
    seq(n, i => if i % 2 == 0 then AddCall(1) else SubCall(1))
  }

  /** `g` workers' calls, one after another. */
  function Workers(g: nat, n: nat): seq<Call>
  {
    if g == 0 then [] else Workers(g - 1, n) + Alternation(n)
  }

  lemma {:induction false} NetAlternation(n: nat)
    ensures Net(Alternation(n)) == n % 2
  {
    if n > 0 {
      assert Alternation(n)[..n - 1] == Alternation(n - 1);
      NetAlternation(n - 1);
    }
  }

  lemma {:induction false} NetWorkers(g: nat, n: nat)
    ensures Net(Workers(g, n)) == if n % 2 == 0 then 0 else g
  {
    if g > 0 {
      NetWorkers(g - 1, n);
      NetConcat(Workers(g - 1, n), Alternation(n));
      NetAlternation(n);
    }
  }

  /** Whatever order `g` workers' alternating calls are served in, one at a
      time, a counter started at 0 ends at 0 when each worker makes an even
      number of calls (`TestExampleCounterAgent` runs 32 workers of 10000 calls). */
  lemma ServedWorkloadEndsAtZero(calls: seq<Call>, g: nat, n: nat)
    requires n % 2 == 0
    requires multiset(calls) == multiset(Workers(g, n))
    ensures Final(0, calls) == 0
  {
    NetWorkers(g, n);
    NetPermutation(calls, Workers(g, n));
    FinalIsNet(0, calls);
  }
}
