/** The restart limiter of one command (daemon/limiter.go). */
module Limiting {

  /* A time counts nanoseconds since Go's zero time, so 0 is `time.Time{}` and every clock reading is positive. */
  const SECOND: int := 1_000_000_000
  const TWO63: int := 0x8000_0000_0000_0000
  const TWO64: int := 0x1_0000_0000_0000_0000

  function Pow2(n: nat): (p: nat)
    ensures p >= 1
  {
    if n == 0 then 1 else 2 * Pow2(n - 1)
  }

  /** The value an int64 holds after arithmetic whose exact result is `x`. */
  function Wrap64(x: int): (r: int)
    ensures -TWO63 <= r < TWO63
    ensures -TWO63 <= x < TWO63 ==> r == x
  {
    if -TWO63 <= x < TWO63 then x else (x + TWO63) % TWO64 - TWO63
  }

  /** Overflow changes the exact result by a multiple of 2^64. */
  lemma WrapsModulo(x: int)
    ensures exists k: int :: Wrap64(x) == x - k * TWO64
  {
    var k := if -TWO63 <= x < TWO63 then 0 else (x + TWO63) / TWO64;
    assert Wrap64(x) == x - k * TWO64;
  }

  /**
   * `time.Duration(math.Pow(2, float64(count)))`. Powers of two are exact in float64, a negative exponent
   * truncates to 0, and an out-of-range conversion gives the least int64 (the choice Go makes on amd64).
   */
  function Factor(count: int): int {
    if count < 0 then 0 else if count < 63 then Pow2(count) else -TWO63
  }

  function Doubled(interval: int, count: nat): int {
    if count == 0 then interval else 2 * Doubled(interval, count - 1)
  }

  /** The 64-bit product of the factor and the interval; `DelayIsProduct` says so. */
  function Delay(count: int, interval: int): int {
    if count < 0 then 0
    else if count < 63 then Wrap64(Doubled(interval, count))
    else Wrap64(-TWO63 * interval)
  }

  datatype LState = LState(count: int, limit: int, interval: int, last: int)

  function Fresh(): LState {
    LState(0, 5, SECOND, 0)
  }

  function NextAt(l: LState, now: int): int {
    if l.last == 0 then now else l.last + Delay(l.count, l.interval)
  }

  /** The test compares `last` with the next start time, not the clock with it. */
  predicate CanAdd(l: LState, n: int, now: int) {
    && l.last < NextAt(l, now)
    && 0 <= l.count + n <= l.limit
  }

  function Add(l: LState, n: int, now: int): LState {
    if CanAdd(l, n, now) then l.(count := l.count + n, last := now) else l
  }

  function Cleared(l: LState): LState {
    l.(count := 0, last := 0)
  }

  // ---------------------------------------------------------------- arithmetic of the delay

  /** Every delay up to `limit` fits a signed 64-bit duration. */
  ghost predicate Fits(limit: int, interval: int) {
    && 0 <= limit < 63
    && interval > 0
    && Pow2(limit) * interval < TWO63
  }

  ghost predicate Sane(l: LState) {
    && 0 <= l.count <= l.limit
    && l.interval > 0
    && l.last >= 0
  }

  lemma {:induction false} Pow2Monotone(m: nat, n: nat)
    requires m <= n
    ensures Pow2(m) <= Pow2(n)
    decreases n
  {
    if m < n {
      Pow2Monotone(m, n - 1);
    }
  }

  lemma ScaleMonotone(a: int, b: int, k: int)
    requires 0 < a <= b && k > 0
    ensures 0 < a * k <= b * k
  {
    assert (b - a) * k >= 0;
    assert a * k + (b - a) * k == b * k;
  }

  lemma {:induction false} Pow2Add(m: nat, n: nat)
    ensures Pow2(m + n) == Pow2(m) * Pow2(n)
    decreases n
  {
    if n > 0 {
      Pow2Add(m, n - 1);
    }
  }

  lemma Pow2At33()
    ensures Pow2(33) == 0x2_0000_0000 && Pow2(34) == 0x4_0000_0000
  {
    assert Pow2(8) == 256;
    Pow2Add(8, 8);
    Pow2Add(16, 16);
    assert Pow2(32) == 0x1_0000_0000;
  }

  lemma {:induction false} DoubledIsProduct(interval: int, count: nat)
    ensures Doubled(interval, count) == Pow2(count) * interval
  {
    if count > 0 {
      DoubledIsProduct(interval, count - 1);
      TwiceProduct(Pow2(count - 1), interval);
    }
  }

  lemma TwiceProduct(p: int, k: int)
    ensures 2 * (p * k) == (2 * p) * k
  {
  }

  lemma DelayIsProduct(count: int, interval: int)
    ensures Delay(count, interval) == Wrap64(Factor(count) * interval)
  {
    if 0 <= count {
      DoubledIsProduct(interval, count);
    }
  }

  /** Under the bound the delay is the exact product, so it is positive and doubles with each restart. */
  lemma DelayExact(count: int, limit: int, interval: int)
    requires 0 <= count <= limit && Fits(limit, interval)
    ensures Delay(count, interval) == Pow2(count) * interval > 0
  {
    Pow2Monotone(count, limit);
    ScaleMonotone(Pow2(count), Pow2(limit), interval);
    DoubledIsProduct(interval, count);
  }

  lemma SecondFits(limit: int)
    requires 0 <= limit < 63
    ensures Fits(limit, SECOND) <==> limit <= 33
  {
    Pow2At33();
    if limit <= 33 {
      Pow2Monotone(limit, 33);
    } else {
      Pow2Monotone(34, limit);
    }
  }

  /** Within the bound the interval test never rejects: a change is accepted exactly when the count stays in range. */
  lemma AddAcceptsExactlyInRange(l: LState, n: int, now: int)
    requires Sane(l) && Fits(l.limit, l.interval) && now > 0
    ensures CanAdd(l, n, now) <==> 0 <= l.count + n <= l.limit
  {
    DelayExact(l.count, l.limit, l.interval);
  }

  /** The exact acceptance condition for every limiter, in range of int64 or not. */
  lemma AddAcceptsIff(l: LState, n: int, now: int)
    requires l.last >= 0 && now > 0
    ensures CanAdd(l, n, now) <==> (l.last == 0 || Delay(l.count, l.interval) > 0) && 0 <= l.count + n <= l.limit
  {
  }

  lemma SecondOverflowsAt34()
    ensures Delay(34, SECOND) < 0
  {
    Pow2At33();
    DelayIsProduct(34, SECOND);
    assert Wrap64(0x4_0000_0000 * SECOND) < 0;
  }

  // ---------------------------------------------------------------- sequences of operations

  datatype Op = Inc(now: int) | Dec(now: int) | Reset

  function Apply(l: LState, op: Op): LState {
    match op
    case Inc(now) => Add(l, 1, now)
    case Dec(now) => Add(l, -1, now)
    case Reset => Cleared(l)
  }

  function ApplyAll(l: LState, ops: seq<Op>): LState {
    if ops == [] then l else Apply(ApplyAll(l, ops[..|ops| - 1]), ops[|ops| - 1])
  }

  /** Accepted increments minus accepted decrements since the last reset. */
  function Balance(l: LState, ops: seq<Op>): int {
    if ops == [] then 0
    else
      var before := ops[..|ops| - 1];
      var op := ops[|ops| - 1];
      if op.Reset? then 0
      else if op.Inc? then Balance(l, before) + (if CanAdd(ApplyAll(l, before), 1, op.now) then 1 else 0)
      else Balance(l, before) - (if CanAdd(ApplyAll(l, before), -1, op.now) then 1 else 0)
  }

  ghost predicate Timed(ops: seq<Op>) {
    forall i :: 0 <= i < |ops| && !ops[i].Reset? ==> ops[i].now > 0
  }

  /** Over every sequence of operations the count is the balance of accepted changes and never leaves its range. */
  lemma {:induction false} CountStaysInRange(l: LState, ops: seq<Op>)
    requires Sane(l) && l.count == 0
    requires Timed(ops)
    ensures Sane(ApplyAll(l, ops))
    ensures ApplyAll(l, ops).count == Balance(l, ops)
    ensures ApplyAll(l, ops).limit == l.limit && ApplyAll(l, ops).interval == l.interval
  {
    if ops != [] {
      CountStaysInRange(l, ops[..|ops| - 1]);
    }
  }

  // ---------------------------------------------------------------- how far the range rule holds

  function Unused(limit: int): LState {
    LState(0, limit, SECOND, 0)
  }

  /** After any operations on a limiter with one-second interval, a change is accepted exactly when in range. */
  ghost predicate AlwaysInRange(limit: nat) {
    forall ops: seq<Op>, n: int, now: int :: Timed(ops) && now > 0 ==>
      (CanAdd(ApplyAll(Unused(limit), ops), n, now) <==> 0 <= ApplyAll(Unused(limit), ops).count + n <= limit)
  }

  function Incs(k: nat): seq<Op> {
    seq(k, _ => Inc(1))
  }

  lemma {:induction false} IncsAreAccepted(limit: nat, k: nat)
    requires k <= limit && k <= 34
    ensures Timed(Incs(k))
    ensures ApplyAll(Unused(limit), Incs(k)) == LState(k, limit, SECOND, if k == 0 then 0 else 1)
  {
    if k > 0 {
      IncsAreAccepted(limit, k - 1);
      assert Incs(k)[..|Incs(k)| - 1] == Incs(k - 1);
      SecondFits(33);
      DelayExact(k - 1, 33, SECOND);
    }
  }

  /**
   * With the one-second interval, a limiter obeys its range rule after all operations exactly when its limit is at
   * most 33. From 34 on, 34 increments make the product overflow, and the limiter refuses even to count down.
   */
  lemma RangeRuleHoldsIffLimitAtMost33(limit: nat)
    ensures AlwaysInRange(limit) <==> limit <= 33
  {
    if limit <= 33 {
      SecondFits(limit);
      forall ops: seq<Op>, n: int, now: int | Timed(ops) && now > 0
        ensures CanAdd(ApplyAll(Unused(limit), ops), n, now) <==>
                0 <= ApplyAll(Unused(limit), ops).count + n <= limit
      {
        CountStaysInRange(Unused(limit), ops);
        AddAcceptsExactlyInRange(ApplyAll(Unused(limit), ops), n, now);
      }
    } else {
      IncsAreAccepted(limit, 34);
      SecondOverflowsAt34();
      assert !CanAdd(ApplyAll(Unused(limit), Incs(34)), -1, 1);
    }
  }

  // ---------------------------------------------------------------- the object

  /** `Limiter`; the mutex makes each method one atomic change. The time zone only affects printing. */
  class Limiter {
    var count: int
    var limit: int
    var interval: int
    var last: int

    function Value(): LState
      reads this
    {
      LState(count, limit, interval, last)
    }

    constructor ()
      ensures Value() == Fresh()
    {
      count, limit, interval, last := 0, 5, SECOND, 0;
    }

    method Next(now: int) returns (at: int)
      ensures at == NextAt(Value(), now)
    {
      if last == 0 {
        return now;
      }
      DelayIsProduct(count, interval);
      return last + Wrap64(Factor(count) * interval);
    }

    method AddN(n: int, now: int) returns (ok: bool)
      modifies this
      ensures ok == CanAdd(old(Value()), n, now)
      ensures Value() == Add(old(Value()), n, now)
    {
      var at := Next(now);
      if !(last < at) {
        return false;
      }
      if count + n > limit || count + n < 0 {
        return false;
      }
      count := count + n;
      last := now;
      return true;
    }

    method Inc(now: int) returns (ok: bool)
      modifies this
      ensures ok == CanAdd(old(Value()), 1, now)
      ensures Value() == Apply(old(Value()), Op.Inc(now))
    {
      ok := AddN(1, now);
    }

    method Dec(now: int) returns (ok: bool)
      modifies this
      ensures ok == CanAdd(old(Value()), -1, now)
      ensures Value() == Apply(old(Value()), Op.Dec(now))
    {
      ok := AddN(-1, now);
    }

    method ResetCount()
      modifies this
      ensures Value() == Apply(old(Value()), Reset)
    {
      count := 0;
      last := 0;
    }
  }
}
