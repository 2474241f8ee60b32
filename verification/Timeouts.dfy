/**
 A timeout on its way through the timeout_seconds column: int(Timeout.Seconds()), whose doubles are rounded
 twice. Near whole numbers the rounding shows from 2^24 seconds on.
 */
module Timeouts {

  const SECOND: int := 1_000_000_000

  // ---------- doubles ----------

  // The greatest power of two not above n.
  function PowerBelow(n: nat): (p: nat)
    requires n >= 1
    ensures p <= n < 2 * p
  {
    if n == 1 then 1 else 2 * PowerBelow(n / 2)
  }

  const TWO_TO_53: int := 9007199254740992

  const TWO_TO_52: real := 4503599627370496.0

  const TWO_TO_54: real := 18014398509481984.0

  // How many half steps from one double to the next make a second, at so many whole seconds.
  function HalfSteps(whole: nat): nat {
    if whole <= 1 then TWO_TO_53 else HalfSteps(whole / 2) / 2
  }

  /**
   v is a double nearest to x: from the power of two p below x on, doubles are multiples of p / 2^52, and none is
   farther than half of that from x. Below one their steps are not above 2^-53.
   */
  ghost predicate Nearest(x: real, v: real)
    requires x >= 0.0
  {
    if x < 1.0 then
      && 0.0 <= v && -1.0 <= (v - x) * TWO_TO_54 <= 1.0
      && (x == 0.0 ==> v == 0.0)
    else
      var p := PowerBelow(x.Floor);
      && -(p as real) <= (v - x) * TWO_TO_53 as real <= p as real
      && (exists m: int :: Multiple(v, m, p))
  }

  // x * n.
  ghost function Times(x: real, n: nat): real {
    if n == 0 then 0.0 else x + Times(x, n - 1)
  }

  ghost predicate Multiple(v: real, m: int, p: nat) {
    v * TWO_TO_52 == Times(m as real, p)
  }

  // Duration.Seconds: the fraction is divided by 1e9 first, then added to the whole seconds.
  ghost predicate Seconds(timeout: nat, fraction: real, seconds: real) {
    && Nearest((timeout % SECOND) as real / SECOND as real, fraction)
    && fraction >= 0.0 && Nearest((timeout / SECOND) as real + fraction, seconds)
  }

  // ---------- the column ----------

  // The fraction is so close to a full second that no double lies between.
  predicate Carries(timeout: nat) {
    (SECOND - timeout % SECOND) * HalfSteps(timeout / SECOND) <= SECOND
  }

  // int(Timeout.Seconds()), which cuts towards zero.
  function StoredSeconds(timeout: int): int
    decreases timeout < 0
  {
    if timeout < 0 then -StoredSeconds(-timeout)
    else timeout / SECOND + if Carries(timeout) then 1 else 0
  }

  // The timeout read back.
  function Reloaded(timeout: int): int {
    StoredSeconds(timeout) * SECOND
  }

  // ---------- powers of two ----------

  function Pow2(k: nat): (p: nat)
    ensures p > 0
  {
    if k == 0 then 1 else 2 * Pow2(k - 1)
  }

  lemma {:induction false} Pow2Sum(a: nat, b: nat)
    ensures Pow2(a + b) == Pow2(a) * Pow2(b)
  {
    if a > 0 {
      Pow2Sum(a - 1, b);
    }
  }

  lemma {:induction false} Pow2Grows(a: nat, b: nat)
    requires a <= b
    ensures Pow2(a) <= Pow2(b)
  {
    if a < b {
      Pow2Grows(a, b - 1);
    }
  }

  lemma {:induction false} PowerIsPow2(n: nat, k: nat) returns (j: nat)
    requires 1 <= n < Pow2(k) && k <= 53
    ensures j < k && PowerBelow(n) == Pow2(j) && HalfSteps(n) == Pow2(53 - j)
  {
    if n == 1 {
      j := 0;
      Pow2Values();
    } else {
      var i := PowerIsPow2(n / 2, k - 1);
      j := i + 1;
      assert Pow2(53 - i) == 2 * Pow2(53 - j);
    }
  }

  lemma LowValues()
    ensures Pow2(20) == 1048576 && Pow2(23) == 8388608 && Pow2(24) == 16777216 && Pow2(25) == 33554432
  {
    Pow2Sum(10, 10);
    assert Pow2(10) == 1024;
    Pow2Sum(20, 3);
    assert Pow2(3) == 8;
    assert Pow2(25) == 2 * Pow2(24) == 4 * Pow2(23);
  }

  lemma Pow2Values()
    ensures Pow2(20) == 1048576 && Pow2(23) == 8388608 && Pow2(24) == 16777216 && Pow2(25) == 33554432
    ensures Pow2(29) == 536870912 && Pow2(30) == 1073741824
    ensures Pow2(31) == 2147483648 && Pow2(34) == 17179869184 && Pow2(53) == TWO_TO_53
  {
    LowValues();
    Pow2Sum(25, 4);
    assert Pow2(4) == 16;
    assert Pow2(31) == 2 * Pow2(30) == 4 * Pow2(29);
    Pow2Sum(30, 4);
    Pow2Sum(29, 24);
  }

  lemma {:induction false} Pow2Divides(k: nat)
    requires k >= 20
    ensures Pow2(k) >= 1048576 && Pow2(k) % 1048576 == 0 && Pow2(k) % 2 == 0
  {
    if k == 20 {
      Pow2Values();
    } else {
      Pow2Divides(k - 1);
    }
  }

  // The half steps of a second are a power of two, from 2^20 to 2^53; between 2^29 and 2^30 there is none.
  lemma StepsFacts(whole: nat)
    requires 1 <= whole < 17179869184
    ensures var p, q := PowerBelow(whole), HalfSteps(whole);
      p * q == TWO_TO_53 && q >= 1048576 && q % 1048576 == 0 && q % 2 == 0 && (q <= 536870912 || q >= 1073741824)
  {
    Pow2Values();
    var j := PowerIsPow2(whole, 34);
    Pow2Sum(j, 53 - j);
    assert j + (53 - j) == 53;
    Pow2Divides(53 - j);
    if j >= 24 {
      Pow2Grows(53 - j, 29);
    } else {
      Pow2Grows(30, 53 - j);
    }
  }

  // ---------- where the carries are ----------

  lemma {:induction false} TimesIs(x: real, n: nat)
    ensures Times(x, n) == x * n as real
  {
    if n > 0 {
      TimesIs(x, n - 1);
      assert x * n as real == x + x * (n - 1) as real;
    }
  }

  lemma {:induction false} TimesMinus(v: real, w: real, n: nat)
    ensures Times(v - w, n) == Times(v, n) - Times(w, n)
  {
    if n > 0 {
      TimesMinus(v, w, n - 1);
    }
  }

  lemma {:induction false} TimesOrder(v: real, w: real, n: nat)
    requires v >= w
    ensures Times(v, n) >= Times(w, n)
  {
    if n > 0 {
      TimesOrder(v, w, n - 1);
    }
  }

  // A whole number of steps from a full second: 10^9 is no multiple of 1024, so that the second rounding is never a
  // tie, and the first never tips it.
  lemma Gap(rest: nat, q: nat)
    requires q % 1048576 == 0
    ensures rest * q <= SECOND - 512 || rest * q >= SECOND + 512
  {
    Kept(rest, q);
    Sides(rest * q / 1024);
  }

  lemma Kept(rest: nat, q: nat)
    requires q % 1048576 == 0
    ensures rest * q % 1024 == 0
  {
    var m := q / 1024;
    assert q == 1024 * m;
    MoveOut(rest, m);
    Multiplied(rest * m);
  }

  lemma MoveOut(rest: nat, m: nat)
    ensures rest * (1024 * m) == 1024 * (rest * m)
  {
  }

  lemma Multiplied(x: nat)
    ensures 1024 * x % 1024 == 0
  {
  }

  lemma Sides(x: int)
    ensures 1024 * x <= SECOND - 512 || 1024 * x >= SECOND + 512
  {
  }

  // What is missing from a full second, counted in half steps, is more than one or less, as without the first rounding.
  lemma Missing(rest: nat, q: nat, fraction: real)
    requires 1 <= rest < SECOND && q >= 1048576 && q % 1048576 == 0 && (q <= 536870912 || q >= 1073741824)
    requires -1.0 <= (fraction - (SECOND - rest) as real / SECOND as real) * TWO_TO_54 <= 1.0
    ensures rest * q <= SECOND ==> Times(1.0 - fraction, q) < 1.0
    ensures rest * q > SECOND ==> Times(1.0 - fraction, q) > 1.0
  {
    Gap(rest, q);
    AtLeast(rest, q);
    var near := rest as real / SECOND as real;
    var e := near - (1.0 - fraction);
    assert (SECOND - rest) as real / SECOND as real == 1.0 - near;
    Scaled(e, q);
    Shift(rest, q);
    TimesMinus(near, 1.0 - fraction, q);
    Decide(rest * q, q, -Times(e, q), Times(1.0 - fraction, q));
  }

  lemma AtLeast(rest: nat, q: nat)
    requires rest >= 1
    ensures rest * q >= q
  {
    assert rest * q == q + (rest - 1) * q;
  }

  lemma {:induction false} Shift(rest: nat, q: nat)
    ensures Times(rest as real / SECOND as real, q) == (rest * q) as real / SECOND as real
  {
    if q > 0 {
      Shift(rest, q - 1);
      assert rest * q == rest * (q - 1) + rest;
    }
  }

  lemma Decide(a: nat, q: nat, error: real, gap: real)
    requires gap == a as real / SECOND as real + error
    requires -(q as real) <= error * TWO_TO_54 <= q as real
    requires a >= q && (q <= 536870912 || q >= 1073741824)
    requires a <= SECOND - 512 || a >= SECOND + 512
    ensures a <= SECOND ==> gap < 1.0
    ensures a > SECOND ==> gap > 1.0
  {
  }

  lemma {:induction false} Scaled(e: real, q: nat)
    requires -1.0 <= e * TWO_TO_54 <= 1.0
    ensures -(q as real) <= Times(e, q) * TWO_TO_54 <= q as real
  {
    if q > 0 {
      Scaled(e, q - 1);
    }
  }

  // ---------- the second rounding ----------

  lemma BeyondOne(y: real, p: real)
    requires p > 0.0
    ensures y > 1.0 ==> y * p > p
    ensures y < -1.0 ==> y * p < -p
  {
    if y > 1.0 {
      assert (y - 1.0) * p > 0.0;
    } else if y < -1.0 {
      assert (y + 1.0) * p < 0.0;
    }
  }

  lemma Cancel(y: real, p: real)
    requires p > 0.0 && -p <= y * p <= p
    ensures -1.0 <= y <= 1.0
  {
    BeyondOne(y, p);
  }

  lemma CancelEqual(y: real, z: real, p: real)
    requires p > 0.0 && y * p == z * p
    ensures y == z
  {
    assert (y - z) * p == 0.0;
  }

  lemma Rescale(v: real, m: real, r: real, s: real)
    requires r > 0.0 && r * s == TWO_TO_53 as real && v * TWO_TO_52 == m * r
    ensures v * s == 2.0 * m
  {
    assert (v * s) * r == v * (r * s) == 2.0 * (v * TWO_TO_52);
    assert 2.0 * (m * r) == (2.0 * m) * r;
    CancelEqual(v * s, 2.0 * m, r);
  }

  lemma Reorder(d: real, s: real, r: real)
    ensures (d * s) * r == d * (s * r)
  {
  }

  lemma Near(d: real, r: real, s: real)
    requires r > 0.0 && r * s == TWO_TO_53 as real && -r <= d * TWO_TO_53 as real <= r
    ensures -1.0 <= d * s <= 1.0
  {
    Reorder(d, s, r);
    assert d * (s * r) == d * TWO_TO_53 as real;
    Cancel(d * s, r);
  }

  // In half steps: the double is an even number of them, within one of what was rounded.
  lemma InHalfSteps(x: real, v: real, m: int, p: nat, q: nat)
    requires p > 0 && p * q == TWO_TO_53
    requires -(p as real) <= (v - x) * TWO_TO_53 as real <= p as real && Multiple(v, m, p)
    ensures Times(v, q) == (2 * m) as real && -1.0 <= Times(v, q) - Times(x, q) <= 1.0
  {
    EvenSteps(v, m, p, q);
    WithinOne(v - x, p, q);
    TimesMinus(v, x, q);
  }

  lemma EvenSteps(v: real, m: int, p: nat, q: nat)
    requires p > 0 && p * q == TWO_TO_53 && Multiple(v, m, p)
    ensures Times(v, q) == (2 * m) as real
  {
    TimesIs(m as real, p);
    TimesIs(v, q);
    assert p as real * q as real == (p * q) as real;
    Rescale(v, m as real, p as real, q as real);
  }

  lemma WithinOne(d: real, p: nat, q: nat)
    requires p > 0 && p * q == TWO_TO_53 && -(p as real) <= d * TWO_TO_53 as real <= p as real
    ensures -1.0 <= Times(d, q) <= 1.0
  {
    TimesIs(d, q);
    assert p as real * q as real == (p * q) as real;
    Near(d, p as real, q as real);
  }

  // What was rounded, in half steps: those of the whole seconds, and those of the fraction.
  lemma Parts(whole: nat, fraction: real, q: nat) returns (start: nat, part: real)
    requires q % 2 == 0 && 0.0 <= fraction < 1.0
    ensures start == whole * q && start % 2 == 0 && start + q == (whole + 1) * q
    ensures 0.0 <= part <= q as real && Times(1.0 - fraction, q) == q as real - part
    ensures Times(whole as real + fraction, q) == start as real + part
  {
    var s := q as real;
    TimesIs(1.0 - fraction, q);
    TimesIs(whole as real + fraction, q);
    start, part := whole * q, fraction * s;
    assert (whole * q) as real == whole as real * s;
    NotNegative(fraction, s);
    NotNegative(1.0 - fraction, s);
    EvenStart(whole, q);
  }

  // Rounded to an even number of half steps, what misses less than one from the full second goes there ...
  lemma RoundsUp(whole: nat, fraction: real, v: real, q: nat, m: int)
    requires q >= 2 && q % 2 == 0 && 0.0 <= fraction < 1.0
    requires Times(v, q) == (2 * m) as real && -1.0 <= Times(v, q) - Times(whole as real + fraction, q) <= 1.0
    requires Times(1.0 - fraction, q) < 1.0
    ensures v.Floor == whole + 1
  {
    var start, part := Parts(whole, fraction, q);
    Evenly(start, q, m, part);
    FloorOfSteps(v, whole + 1, m, q);
  }

  // ... and the rest stays below.
  lemma RoundsDown(whole: nat, fraction: real, v: real, q: nat, m: int)
    requires q >= 2 && q % 2 == 0 && 0.0 <= fraction < 1.0
    requires Times(v, q) == (2 * m) as real && -1.0 <= Times(v, q) - Times(whole as real + fraction, q) <= 1.0
    requires Times(1.0 - fraction, q) > 1.0
    ensures v.Floor == whole
  {
    var start, part := Parts(whole, fraction, q);
    Evenly(start, q, m, part);
    FloorOfSteps(v, whole, m, q);
  }

  lemma FloorOfSteps(v: real, n: nat, m: int, q: nat)
    requires q > 0 && Times(v, q) == (2 * m) as real && n * q <= 2 * m < n * q + q
    ensures v.Floor == n
  {
    TimesIs(n as real, q);
    TimesIs(n as real + 1.0, q);
    Whole(n, q);
    if v < n as real {
      TimesStrict(n as real, v, q);
    }
    if v >= n as real + 1.0 {
      TimesOrder(v, n as real + 1.0, q);
    }
    Between(v, n);
  }

  lemma Whole(n: nat, q: nat)
    ensures n as real * q as real == (n * q) as real && (n as real + 1.0) * q as real == (n * q + q) as real
  {
  }

  lemma TimesStrict(v: real, w: real, n: nat)
    requires v > w && n > 0
    ensures Times(v, n) > Times(w, n)
  {
    TimesOrder(v, w, n - 1);
  }

  lemma Between(v: real, n: nat)
    requires n as real <= v < n as real + 1.0
    ensures v.Floor == n
  {
  }

  lemma NotNegative(a: real, b: real)
    requires a >= 0.0 && b >= 0.0
    ensures a * b >= 0.0
  {
  }

  lemma Evenly(start: int, q: int, m: int, part: real)
    requires start % 2 == 0 && q % 2 == 0 && 0.0 <= part <= q as real
    requires -1.0 <= (2 * m) as real - (start as real + part) <= 1.0
    ensures start <= 2 * m <= start + q
    ensures q as real - part < 1.0 ==> 2 * m == start + q
    ensures q as real - part > 1.0 ==> 2 * m < start + q
  {
    assert 2 * m >= start - 1;
    assert 2 * m <= start + q + 1;
    if q as real - part < 1.0 {
      assert 2 * m > start + q - 2;
    }
  }

  lemma EvenStart(whole: nat, q: nat)
    requires q % 2 == 0
    ensures whole * q % 2 == 0
  {
    assert whole * q == 2 * (whole * (q / 2));
  }

  // ---------- what the column holds ----------

  // 2^34 seconds, more than an int64 of nanoseconds can hold.
  const HORIZON: int := 17179869184 * SECOND

  lemma FractionBounds(timeout: nat, fraction: real)
    requires Nearest((timeout % SECOND) as real / SECOND as real, fraction)
    ensures 0.0 <= fraction < 1.0 && (timeout % SECOND == 0 ==> fraction == 0.0)
  {
    assert (timeout % SECOND) as real / SECOND as real <= 0.999999999;
  }

  lemma FloorOf(whole: nat, fraction: real)
    requires 0.0 <= fraction < 1.0
    ensures (whole as real + fraction).Floor == whole
  {
  }

  lemma SomeMultiple(x: real, v: real, whole: nat) returns (m: int)
    requires 1 <= whole && x.Floor == whole && Nearest(x, v)
    ensures var p := PowerBelow(whole);
      -(p as real) <= (v - x) * TWO_TO_53 as real <= p as real && Multiple(v, m, p)
  {
    m :| Multiple(v, m, PowerBelow(x.Floor));
  }

  // The double as an even number of half steps.
  lemma Steps(x: real, v: real, whole: nat) returns (m: int)
    requires 1 <= whole < 17179869184 && x.Floor == whole && Nearest(x, v)
    ensures var q := HalfSteps(whole);
      q >= 2 && q % 2 == 0 && Times(v, q) == (2 * m) as real && -1.0 <= Times(v, q) - Times(x, q) <= 1.0
  {
    m := SomeMultiple(x, v, whole);
    StepsFacts(whole);
    InHalfSteps(x, v, m, PowerBelow(whole), HalfSteps(whole));
  }

  lemma SecondUp(whole: nat, fraction: real, seconds: real)
    requires 1 <= whole < 17179869184 && 0.0 <= fraction < 1.0 && Nearest(whole as real + fraction, seconds)
    requires Times(1.0 - fraction, HalfSteps(whole)) < 1.0
    ensures seconds.Floor == whole + 1
  {
    FloorOf(whole, fraction);
    var m := Steps(whole as real + fraction, seconds, whole);
    RoundsUp(whole, fraction, seconds, HalfSteps(whole), m);
  }

  lemma SecondDown(whole: nat, fraction: real, seconds: real)
    requires 1 <= whole < 17179869184 && 0.0 <= fraction < 1.0 && Nearest(whole as real + fraction, seconds)
    requires Times(1.0 - fraction, HalfSteps(whole)) > 1.0
    ensures seconds.Floor == whole
  {
    FloorOf(whole, fraction);
    var m := Steps(whole as real + fraction, seconds, whole);
    RoundsDown(whole, fraction, seconds, HalfSteps(whole), m);
  }

  lemma FirstRounding(timeout: nat, fraction: real)
    requires 1 <= timeout / SECOND < 17179869184 && Nearest((timeout % SECOND) as real / SECOND as real, fraction)
    ensures Carries(timeout) ==> Times(1.0 - fraction, HalfSteps(timeout / SECOND)) < 1.0
    ensures !Carries(timeout) ==> Times(1.0 - fraction, HalfSteps(timeout / SECOND)) > 1.0
  {
    FractionBounds(timeout, fraction);
    StepsFacts(timeout / SECOND);
    var q, rest := HalfSteps(timeout / SECOND), SECOND - timeout % SECOND;
    if timeout % SECOND == 0 {
      TimesIs(1.0 - fraction, q);
      NoCarry(q);
    } else {
      Missing(rest, q, fraction);
    }
  }

  // Below one second.
  lemma NoSecond(timeout: nat, fraction: real, seconds: real)
    requires timeout < SECOND && Seconds(timeout, fraction, seconds)
    ensures seconds.Floor == 0 && !Carries(timeout)
  {
    FractionBounds(timeout, fraction);
    assert fraction <= 0.9999999995;
  }

  /** Whatever doubles the two roundings allow, the column gets StoredSeconds: for every timeout an int64 can hold. */
  lemma StoredIsRounded(timeout: nat, fraction: real, seconds: real)
    requires timeout < HORIZON && Seconds(timeout, fraction, seconds)
    ensures seconds.Floor == StoredSeconds(timeout)
  {
    if timeout < SECOND {
      NoSecond(timeout, fraction, seconds);
    } else {
      FractionBounds(timeout, fraction);
      FirstRounding(timeout, fraction);
      if Carries(timeout) {
        SecondUp(timeout / SECOND, fraction, seconds);
      } else {
        SecondDown(timeout / SECOND, fraction, seconds);
      }
    }
  }

  lemma NoCarry(q: nat)
    requires q >= 1048576
    ensures SECOND * q > SECOND && (1.0 - 0.0) * q as real > 1.0
  {
  }

  lemma {:induction false} StepsBetween(n: nat, k: nat)
    requires k <= 53 && Pow2(k) <= n < Pow2(k + 1)
    ensures HalfSteps(n) == Pow2(53 - k)
  {
    if k == 0 {
      Pow2Values();
    } else {
      StepsBetween(n / 2, k - 1);
      assert Pow2(53 - (k - 1)) == 2 * Pow2(53 - k);
    }
  }

  /**
   Storing and reloading a timeout changes it by less than a second, and changes nothing the second time; it grows iff
   it carries.
   */
  lemma RoundTrip(timeout: nat, fraction: real, seconds: real)
    requires timeout < HORIZON - SECOND && Seconds(timeout, fraction, seconds)
    ensures var back := seconds.Floor * SECOND;
      && back == Reloaded(timeout) && 0 <= back && -SECOND < back - timeout < SECOND
      && (back > timeout <==> Carries(timeout))
      && (forall f, v :: Seconds(back, f, v) ==> v.Floor * SECOND == back)
  {
    StoredIsRounded(timeout, fraction, seconds);
    var back := seconds.Floor * SECOND;
    if Carries(timeout) {
      CarriesLate(timeout);
    }
    forall f, v | Seconds(back, f, v)
      ensures v.Floor * SECOND == back
    {
      StoredIsRounded(back, f, v);
      Settled(seconds.Floor);
    }
  }

  lemma CarriesLate(timeout: nat)
    requires timeout < HORIZON && Carries(timeout)
    ensures timeout / SECOND > 0 && timeout % SECOND > 0
  {
    if timeout / SECOND > 0 {
      StepsFacts(timeout / SECOND);
    }
  }

  lemma Settled(whole: nat)
    requires whole < 17179869184
    ensures StoredSeconds(whole * SECOND) == whole
  {
    assert whole * SECOND / SECOND == whole && whole * SECOND % SECOND == 0;
    if whole > 0 {
      StepsFacts(whole);
    }
  }

  /** The first timeouts to grow: none before 2^24 seconds, and up to 2^25 those a nanosecond short of a full second. */
  lemma FirstToGrow(timeout: nat)
    requires timeout < 33554432 * SECOND
    ensures StoredSeconds(timeout) * SECOND > timeout
       <==> timeout >= 16777216 * SECOND && timeout % SECOND == 999_999_999
  {
    Pow2Values();
    var whole := timeout / SECOND;
    if whole >= 16777216 {
      StepsBetween(whole, 24);
    } else if whole > 0 {
      StepsFacts(whole);
      BelowTwentyFour(whole);
    }
  }

  lemma BelowTwentyFour(whole: nat)
    requires 1 <= whole < 16777216
    ensures HalfSteps(whole) >= 1073741824
  {
    Pow2Values();
    var j := PowerIsPow2(whole, 24);
    Pow2Grows(30, 53 - j);
  }

  // What fits an INTEGER column.
  const MAX_INTEGER: int := 0x7FFF_FFFF

  /** What the column takes: from one second up to 120 nanoseconds short of 2^31 seconds. */
  lemma FitsColumn(timeout: int)
    requires timeout < HORIZON
    ensures 0 < StoredSeconds(timeout) <= MAX_INTEGER <==> SECOND <= timeout <= 2147483648 * SECOND - 120
  {
    Pow2Values();
    if timeout >= 0 {
      var whole := timeout / SECOND;
      if whole == MAX_INTEGER {
        StepsBetween(whole, 30);
      }
      if Carries(timeout) {
        CarriesLate(timeout);
      }
    }
  }
}
