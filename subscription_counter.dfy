/** `SubscriptionCounter` (base scenario, shared by the idempotency example):
    an immutable counter over a Kotlin `Int`, whose `increment` builds an
    incremented copy. Kotlin's `Int` is 32-bit two's complement, so the
    increment of `Int.MAX_VALUE` wraps to `Int.MIN_VALUE`. */
module SubscriptionCounters {

  const INT_MIN: int := -0x8000_0000
  const INT_MAX: int := 0x7fff_ffff
  const INT_RANGE: int := 0x1_0000_0000

  newtype Int32 = x: int | -0x8000_0000 <= x < 0x8000_0000

  /** Two's-complement truncation of an unbounded integer to 32 bits. */
  function Wrap(x: int): (r: Int32)
    ensures INT_MIN <= x <= INT_MAX ==> r as int == x
  {
    ((x - INT_MIN) % INT_RANGE + INT_MIN) as Int32
  }

  /** Truncation changes a value by a multiple of 2^32. */
  lemma WrapCongruent(x: int)
    ensures (x - Wrap(x) as int) % INT_RANGE == 0
  {
  }

  /** Truncation only depends on the value modulo 2^32. */
  lemma WrapShift(x: int, k: int)
    ensures Wrap(x + k * INT_RANGE) == Wrap(x)
  {
    assert (x + k * INT_RANGE - INT_MIN) % INT_RANGE == (x - INT_MIN) % INT_RANGE;
  }

  /** Truncating before an addition is the same as truncating after it. */
  lemma WrapAdd(x: int, d: int)
    ensures Wrap(Wrap(x) as int + d) == Wrap(x + d)
  {
    WrapCongruent(x);
    var k := (x - Wrap(x) as int) / INT_RANGE;
    assert x == Wrap(x) as int + k * INT_RANGE;
    WrapShift(Wrap(x) as int + d, k);
  }

  datatype SubscriptionCounter = SubscriptionCounter(count: Int32)

  /** `increment()`: the copy counts one more, wrapping at `Int.MAX_VALUE`. */
  function Increment(c: SubscriptionCounter): (r: SubscriptionCounter)
    ensures c.count as int < INT_MAX ==> r.count as int == c.count as int + 1
    ensures c.count as int == INT_MAX ==> r.count as int == INT_MIN
  {
    SubscriptionCounter(if c.count as int == INT_MAX then INT_MIN as Int32 else c.count + 1)
  }

  /** `increment` is addition of one, truncated to 32 bits. */
  lemma IncrementWraps(c: SubscriptionCounter)
    ensures Increment(c).count == Wrap(c.count as int + 1)
  {
  }

  /** `n` successive increments. */
  function IncrementTimes(c: SubscriptionCounter, n: nat): SubscriptionCounter
    decreases n
  {
    if n == 0 then c else Increment(IncrementTimes(c, n - 1))
  }

  /** `n` successive increments add `n`, modulo 2^32; without overflow, exactly `n`. */
  lemma {:induction false} IncrementTimesAdds(c: SubscriptionCounter, n: nat)
    ensures IncrementTimes(c, n).count == Wrap(c.count as int + n)
    ensures c.count as int + n <= INT_MAX ==> IncrementTimes(c, n).count as int == c.count as int + n
    decreases n
  {
    if n == 0 {
      assert Wrap(c.count as int) == c.count;
    } else {
      IncrementTimesAdds(c, n - 1);
      IncrementWraps(IncrementTimes(c, n - 1));
      WrapAdd(c.count as int + (n - 1), 1);
    }
  }
}
