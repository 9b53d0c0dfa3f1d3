/**
 * The 64-bit counters behind the server's id generators:
 * `Interlocked.Increment` on a `long` adds one and wraps from
 * long.MaxValue to long.MinValue.
 */
module Int64 {
  const MinLong: int := -0x8000_0000_0000_0000
  const MaxLong: int := 0x7FFF_FFFF_FFFF_FFFF

  newtype long = x: int | -0x8000_0000_0000_0000 <= x <= 0x7FFF_FFFF_FFFF_FFFF

  /** The value `Interlocked.Increment` stores and returns. */
  function Incremented(x: long): (r: long)
    ensures x as int < MaxLong ==> r as int == x as int + 1
    ensures x as int == MaxLong ==> r as int == MinLong
    ensures r as int == (x as int + 1 - MinLong) % 0x1_0000_0000_0000_0000 + MinLong
  {
    if x as int == MaxLong then MinLong as long else x + 1
  }

  /** The counter after n increments from start. */
  function After(start: long, n: nat): long
    decreases n
  {
    if n == 0 then start else Incremented(After(start, n - 1))
  }

  /** The values n successive increments from start return, in order. */
  function Issued(start: long, n: nat): (r: seq<long>)
    ensures |r| == n
    decreases n
  {
    if n == 0 then [] else Issued(start, n - 1) + [After(start, n)]
  }

  /** From zero, the counter after n increments is n, as long as n fits. */
  lemma {:induction false} AfterFromZero(n: nat)
    requires n <= MaxLong
    ensures After(0, n) as int == n
    decreases n
  {
    if n > 0 {
      AfterFromZero(n - 1);
    }
  }

  /** A fresh counter hands out 1, 2, 3, …: the i-th call returns i + 1. */
  lemma {:induction false} IssuedFromZero(n: nat)
    requires n <= MaxLong
    ensures forall i :: 0 <= i < n ==> Issued(0, n)[i] as int == i + 1
    decreases n
  {
    if n > 0 {
      IssuedFromZero(n - 1);
      AfterFromZero(n);
      assert Issued(0, n) == Issued(0, n - 1) + [After(0, n)];
    }
  }

  /** Before the counter wraps, the handed-out ids strictly increase, so no id is handed out twice. */
  lemma IssuedIncreasing(n: nat)
    requires n <= MaxLong
    ensures forall i, j :: 0 <= i < j < n ==> Issued(0, n)[i] < Issued(0, n)[j]
  {
    IssuedFromZero(n);
  }

  /** The increment after long.MaxValue hands out long.MinValue. */
  lemma WrapsAtMax()
    ensures After(0, MaxLong + 1) as int == MinLong
  {
    AfterFromZero(MaxLong);
  }
}
