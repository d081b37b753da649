/**
 * `ShaderRuntime.Utility.Counter`: a reference count held in a 32-bit unsigned
 * integer, and an action run whenever a decrement brings it to zero. The
 * arithmetic is unchecked, so both directions wrap around.
 */
module Utility {
  import opened Wrappers

  /** `uint`. */
  newtype uint32 = x: int | 0 <= x < 0x1_0000_0000

  const MaxValue: uint32 := 0xFFFF_FFFF

  /** `n + 1` on a `uint`, wrapping to 0 past the largest value. */
  function Successor(n: uint32): (r: uint32)
    ensures r as int == (n as int + 1) % 0x1_0000_0000
  {
    if n == MaxValue then 0 else n + 1
  }

  /** `n - 1` on a `uint`, wrapping to the largest value below 0. */
  function Predecessor(n: uint32): (r: uint32)
    ensures r as int == (n as int - 1) % 0x1_0000_0000
  {
    if n == 0 then MaxValue else n - 1
  }

  lemma PredecessorUndoesSuccessor(n: uint32)
    ensures Predecessor(Successor(n)) == n && Successor(Predecessor(n)) == n
  {}

  /** The two operations on a counter. */
  datatype Op = Increment | Decrement

  /** One operation: the new count, and whether the destructor ran. */
  function Step(count: uint32, op: Op): (uint32, bool) {
    match op
    case Increment => (Successor(count), false)
    case Decrement => var n := Predecessor(count); (n, n == 0)
  }

  /** A run of operations from `count`: the final count, and for each operation whether the destructor ran. */
  function Run(count: uint32, ops: seq<Op>): (r: (uint32, seq<bool>))
    ensures |r.1| == |ops|
    decreases ops
  {
    if ops == [] then (count, [])
    else
      var (next, fired) := Step(count, ops[0]);
      var rest := Run(next, ops[1..]);
      (rest.0, [fired] + rest.1)
  }

  class Counter<A> {
    var internalCount: uint32
    var destructAction: A

    /** A new counter holds the given destructor and a count of 0. */
    constructor(destructor: A)
      ensures Count() == 0 && Destructor() == destructor
    {
      internalCount := 0;
      destructAction := destructor;
    }

    /** `Count`. */
    function Count(): uint32
      reads this
    {
      internalCount
    }

    /** The getter of `Destructor`. */
    function Destructor(): A
      reads this
    {
      destructAction
    }

    /** The setter of `Destructor`: the action is replaced and the count kept. */
    method SetDestructor(value: A)
      modifies this
      ensures Destructor() == value && Count() == old(Count())
    {
      destructAction := value;
    }

    /** `Increment`: one more reference; the destructor does not run. */
    method Increment()
      modifies this
      ensures (Count(), false) == Step(old(Count()), Op.Increment)
      ensures Destructor() == old(Destructor())
    {
      internalCount := Successor(internalCount);
    }

    /**
     * `Decrement`: one reference fewer; the destructor runs, and is returned
     * as `fired`, exactly when the new count is 0.
     */
    method Decrement() returns (fired: Option<A>)
      modifies this
      ensures (Count(), fired.Some?) == Step(old(Count()), Op.Decrement)
      ensures fired.Some? ==> fired.value == Destructor()
      ensures Destructor() == old(Destructor())
    {
      internalCount := Predecessor(internalCount);
      if internalCount == 0 {
        fired := Some(destructAction);
      } else {
        fired := None;
      }
    }

    /** `operator++`: increments the counter and returns the same instance. */
    static method PlusPlus(v: Counter<A>) returns (r: Counter<A>)
      modifies v
      ensures r == v
      ensures (v.Count(), false) == Step(old(v.Count()), Op.Increment)
      ensures v.Destructor() == old(v.Destructor())
    {
      v.Increment();
      r := v;
    }

    /** `operator--`: decrements the counter and returns the same instance. */
    static method MinusMinus(v: Counter<A>) returns (r: Counter<A>, fired: Option<A>)
      modifies v
      ensures r == v
      ensures (v.Count(), fired.Some?) == Step(old(v.Count()), Op.Decrement)
      ensures fired.Some? ==> fired.value == v.Destructor()
      ensures v.Destructor() == old(v.Destructor())
    {
      fired := v.Decrement();
      r := v;
    }
  }

  // ---------------------------------------------------------------------------
  // Properties of runs
  // ---------------------------------------------------------------------------

  function Repeat(op: Op, n: nat): (ops: seq<Op>)
    ensures |ops| == n && forall k :: 0 <= k < n ==> ops[k] == op
  {
    if n == 0 then [] else [op] + Repeat(op, n - 1)
  }

  function Quiet(n: nat): (fs: seq<bool>)
    ensures |fs| == n && forall k :: 0 <= k < n ==> !fs[k]
  {
    if n == 0 then [] else [false] + Quiet(n - 1)
  }

  /** Running one sequence of operations after another. */
  lemma {:induction false} RunConcat(count: uint32, a: seq<Op>, b: seq<Op>)
    ensures Run(count, a + b) == (Run(Run(count, a).0, b).0, Run(count, a).1 + Run(Run(count, a).0, b).1)
    decreases a
  {
    if a == [] {
      assert a + b == b;
      assert [] + Run(count, b).1 == Run(count, b).1;
    } else {
      var (next, fired) := Step(count, a[0]);
      assert (a + b)[0] == a[0] && (a + b)[1..] == a[1..] + b;
      RunConcat(next, a[1..], b);
      var p := Run(next, a[1..]).1;
      var q := Run(Run(next, a[1..]).0, b).1;
      assert [fired] + (p + q) == ([fired] + p) + q;
    }
  }

  /** Increments below the largest count add up and never run the destructor. */
  lemma {:induction false} IncrementsAddUp(count: uint32, n: nat)
    requires count as int + n < 0x1_0000_0000
    ensures Run(count, Repeat(Increment, n)) == ((count as int + n) as uint32, Quiet(n))
    decreases n
  {
    if n > 0 {
      assert Repeat(Increment, n)[1..] == Repeat(Increment, n - 1);
      IncrementsAddUp(count + 1, n - 1);
    }
  }

  /** `n` decrements from `n` reach 0 and run the destructor only at the last one. */
  lemma {:induction false} DecrementsToZero(n: nat)
    requires 0 < n < 0x1_0000_0000
    ensures Run(n as uint32, Repeat(Decrement, n)) == (0, Quiet(n - 1) + [true])
  {
    assert Repeat(Decrement, n)[1..] == Repeat(Decrement, n - 1);
    assert Step(n as uint32, Decrement) == ((n - 1) as uint32, n == 1);
    if n == 1 {
      assert Run(0, []) == (0, []);
      assert Quiet(0) + [true] == [true] + [];
    } else {
      DecrementsToZero(n - 1);
      assert [false] + (Quiet(n - 2) + [true]) == Quiet(n - 1) + [true];
    }
  }

  /**
   * From a new counter, `n` increments and then `n` decrements run the
   * destructor exactly once, on the last decrement, and leave the count at 0.
   */
  lemma BalancedUseFiresOnceAtTheEnd(n: nat)
    requires 0 < n < 0x1_0000_0000
    ensures Run(0, Repeat(Increment, n) + Repeat(Decrement, n)) == (0, Quiet(2 * n - 1) + [true])
  {
    RunConcat(0, Repeat(Increment, n), Repeat(Decrement, n));
    IncrementsAddUp(0, n);
    DecrementsToZero(n);
    assert Quiet(n) + (Quiet(n - 1) + [true]) == Quiet(2 * n - 1) + [true];
  }

  /** Decrementing a count of 0 wraps to the largest value and does not run the destructor. */
  lemma DecrementAtZeroWraps()
    ensures Step(0, Decrement) == (MaxValue, false)
  {}

  /** Incrementing the largest count wraps to 0, and the destructor still does not run. */
  lemma IncrementAtMaxWraps()
    ensures Step(MaxValue, Increment) == (0, false)
  {}
}
