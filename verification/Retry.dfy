/** The retry policy's delays and window. */
module Retry {
  datatype RetryPolicy = RetryPolicy(base: real, cap: real, maxAttempts: int, jitter: bool)

  /** 2 ** n, also for negative n. */
  function Pow2(n: int): (r: real)
    ensures r > 0.0
    decreases if n < 0 then -n else n
  {
    if n == 0 then 1.0 else if n > 0 then 2.0 * Pow2(n - 1) else Pow2(n + 1) / 2.0
  }

  function Min(a: real, b: real): real {
    if a <= b then a else b
  }

  function Exponential(p: RetryPolicy, attempt: int): real {
    Product(p.base, Pow2(attempt))
  }

  function Product(a: real, x: real): real {
    a * x
  }

  function Capped(p: RetryPolicy, attempt: int): real {
    Min(Exponential(p, attempt), p.cap)
  }

  /** The un-jittered delay. */
  function Ceiling(p: RetryPolicy, attempt: int): real {
    if attempt >= p.maxAttempts then p.cap else Capped(p, attempt)
  }

  predicate Sane(p: RetryPolicy) {
    p.base >= 0.0 && p.cap >= 0.0
  }

  /** `draw` in [0, 1] is the random number behind a uniform draw. */
  method Delay(p: RetryPolicy, attempt: int, draw: real) returns (d: real)
    requires 0.0 <= draw <= 1.0
    ensures attempt >= p.maxAttempts ==> d == p.cap
    ensures !p.jitter || attempt >= p.maxAttempts ==> d == Ceiling(p, attempt)
    ensures p.jitter && attempt < p.maxAttempts ==> d == Ceiling(p, attempt) * draw
    ensures attempt >= 0 ==> d == Drawn(p, attempt, draw)
    ensures Ceiling(p, attempt) <= p.cap
    ensures Sane(p) ==> 0.0 <= d <= Ceiling(p, attempt)
  {
    if attempt >= p.maxAttempts {
      return p.cap;
    }
    if Sane(p) {
      ExponentialGrows(p, attempt, attempt);
    }
    var exponential := Exponential(p, attempt);
    var capped := if exponential < p.cap then exponential else p.cap;
    if !p.jitter {
      return capped;
    }
    d := capped * draw;
    if Sane(p) {
      Scaled(capped, draw);
    }
  }

  /** The delay backs off: it starts from the base, each attempt doubles it up to the cap, and from
      max_attempts on it is the cap. */
  lemma CeilingDoubles(p: RetryPolicy, n: int)
    ensures p.maxAttempts > 0 ==> Ceiling(p, 0) == if p.base <= p.cap then p.base else p.cap
    ensures p.cap >= 0.0 && n + 1 < p.maxAttempts ==>
              Ceiling(p, n + 1) == if 2.0 * Ceiling(p, n) <= p.cap then 2.0 * Ceiling(p, n) else p.cap
    ensures n >= p.maxAttempts ==> Ceiling(p, n) == p.cap
  {
    ExponentialDoubles(p, n);
  }

  /** Before the cap. */
  lemma ExponentialDoubles(p: RetryPolicy, n: int)
    ensures Exponential(p, 0) == p.base && Exponential(p, n + 1) == 2.0 * Exponential(p, n)
    ensures n < p.maxAttempts ==> Ceiling(p, n) == if Exponential(p, n) <= p.cap then Exponential(p, n) else p.cap
  {
    assert Exponential(p, 0) == p.base * 1.0;
    assert Pow2(n + 1) == 2.0 * Pow2(n);
  }

  /** The delay a draw leads to. */
  function Drawn(p: RetryPolicy, attempt: nat, draw: real): real {
    if p.jitter && attempt < p.maxAttempts then Product(Ceiling(p, attempt), draw) else Ceiling(p, attempt)
  }

  /** When the guarantee of the delay's documentation can be given. */
  predicate Bounded(p: RetryPolicy) {
    p.cap >= 0.0 && (p.base >= 0.0 || p.maxAttempts <= 0)
  }

  lemma CeilingInRange(p: RetryPolicy, attempt: nat)
    requires Bounded(p)
    ensures 0.0 <= Ceiling(p, attempt) <= p.cap
  {
    if p.base >= 0.0 {
      ExponentialGrows(p, attempt, attempt);
    }
  }

  lemma DelayInRange(p: RetryPolicy, attempt: nat, draw: real)
    requires Bounded(p) && 0.0 <= draw <= 1.0
    ensures 0.0 <= Drawn(p, attempt, draw) <= p.cap
  {
    hide Ceiling, Product;
    CeilingInRange(p, attempt);
    Scaled(Ceiling(p, attempt), draw);
  }

  lemma DelayOutOfRange(p: RetryPolicy) returns (attempt: nat)
    requires !Bounded(p)
    ensures !(0.0 <= Drawn(p, attempt, 1.0) <= p.cap)
  {
    if p.cap < 0.0 {
      attempt := if p.maxAttempts < 0 then 0 else p.maxAttempts;
    } else {
      attempt := 0;
      assert Pow2(0) == 1.0 && Exponential(p, 0) == p.base;
    }
  }

  /** 0 <= delay <= cap holds for every attempt and every draw if and only if the cap is not negative,
      and the base is not either unless no attempt is ever computed from it. */
  lemma DelayInRangeIff(p: RetryPolicy)
    ensures (forall attempt: nat, draw: real :: 0.0 <= draw <= 1.0 ==> 0.0 <= Drawn(p, attempt, draw) <= p.cap) <==>
            Bounded(p)
  {
    hide Drawn;
    if Bounded(p) {
      forall attempt: nat, draw: real | 0.0 <= draw <= 1.0 ensures 0.0 <= Drawn(p, attempt, draw) <= p.cap {
        DelayInRange(p, attempt, draw);
      }
    } else {
      var attempt := DelayOutOfRange(p);
    }
  }

  lemma Scaled(x: real, f: real)
    requires x >= 0.0 && 0.0 <= f <= 1.0
    ensures 0.0 <= Product(x, f) <= x
  {
  }

  lemma {:induction false} Pow2Grows(m: int, n: int)
    requires m <= n
    ensures Pow2(m) <= Pow2(n)
    decreases n - m
  {
    if m < n {
      Pow2Grows(m, n - 1);
      assert Pow2(n - 1) <= Pow2(n);
    }
  }

  lemma ExponentialGrows(p: RetryPolicy, m: int, n: int)
    requires Sane(p) && m <= n
    ensures 0.0 <= Exponential(p, m) <= Exponential(p, n)
  {
    Pow2Grows(m, n);
    Times(p.base, Pow2(m), Pow2(n));
  }

  lemma Times(a: real, x: real, y: real)
    requires a >= 0.0 && 0.0 <= x <= y
    ensures 0.0 <= Product(a, x) <= Product(a, y)
  {
  }

  /** Waiting longer never shortens the wait, and the ceiling stays within [0, cap]. */
  lemma CeilingMonotone(p: RetryPolicy, m: int, n: int)
    requires Sane(p) && m <= n
    ensures 0.0 <= Ceiling(p, m) <= Ceiling(p, n) <= p.cap
  {
    ExponentialGrows(p, m, n);
  }

  // -- the total window ---------------------------------------------------------

  /** Sum of the capped delays of attempts 0 up to n. */
  function WindowSum(p: RetryPolicy, n: nat): real {
    if n == 0 then 0.0 else WindowSum(p, n - 1) + Capped(p, n - 1)
  }

  /** The un-jittered delays of attempts 0 up to n. */
  function Ceilings(p: RetryPolicy, n: nat): (ds: seq<real>)
    ensures |ds| == n && forall i :: 0 <= i < n ==> ds[i] == Ceiling(p, i)
  {
    seq(n, i requires 0 <= i < n => Ceiling(p, i))
  }

  function Sum(ds: seq<real>): real {
    if ds == [] then 0.0 else Sum(ds[..|ds| - 1]) + ds[|ds| - 1]
  }

  lemma {:induction false} SumSplits(a: seq<real>, b: seq<real>)
    ensures Sum(a + b) == Sum(a) + Sum(b)
    ensures |a| == 1 ==> Sum(a) == a[0]
  {
    if b == [] {
      assert a + b == a;
    } else {
      SumSplits(a, b[..|b| - 1]);
      assert (a + b)[..|a + b| - 1] == a + b[..|b| - 1];
    }
  }

  /** The window adds up exactly the delays the policy gives. */
  lemma {:induction false} WindowAddsCeilings(p: RetryPolicy, n: nat)
    requires n <= p.maxAttempts
    ensures WindowSum(p, n) == Sum(Ceilings(p, n))
  {
    if n > 0 {
      WindowAddsCeilings(p, n - 1);
      assert Ceilings(p, n)[..n - 1] == Ceilings(p, n - 1);
    }
  }

  method MaxTotalWindow(p: RetryPolicy) returns (total: real)
    ensures total == Sum(Ceilings(p, if p.maxAttempts < 0 then 0 else p.maxAttempts))
    ensures total == WindowSum(p, if p.maxAttempts < 0 then 0 else p.maxAttempts)
  {
    total := 0.0;
    var n := if p.maxAttempts < 0 then 0 else p.maxAttempts;
    for i := 0 to n
      invariant total == WindowSum(p, i)
    {
      var exponential := Exponential(p, i);
      total := total + (if exponential <= p.cap then exponential else p.cap);
    }
    if n <= p.maxAttempts {
      WindowAddsCeilings(p, n);
    }
  }

  /** How many of the first n attempts are not cut off by the cap. */
  function Uncapped(p: RetryPolicy, n: nat): (k: nat)
    ensures k <= n
  {
    if n == 0 then 0 else Uncapped(p, n - 1) + (if Exponential(p, n - 1) <= p.cap then 1 else 0)
  }

  /** Those are the first ones: once an attempt is cut off, every later one is. */
  lemma {:induction false} UncappedIsPrefix(p: RetryPolicy, n: nat, i: nat)
    requires Sane(p) && i < n
    ensures Exponential(p, i) <= p.cap <==> i < Uncapped(p, n)
  {
    if i < n - 1 {
      UncappedIsPrefix(p, n - 1, i);
      ExponentialGrows(p, i, n - 1);
      if Exponential(p, n - 1) <= p.cap {
        AllUncapped(p, n - 1, n - 1);
      }
    } else if Exponential(p, i) <= p.cap {
      AllUncapped(p, i, i);
    }
  }

  lemma {:induction false} AllUncapped(p: RetryPolicy, n: nat, last: nat)
    requires Sane(p) && n <= last && Exponential(p, last) <= p.cap
    ensures Uncapped(p, n) == n
  {
    if n > 0 {
      AllUncapped(p, n - 1, last);
      ExponentialGrows(p, n - 1, last);
    }
  }

  /** base * (1 + 2 + ... + 2 ** (k - 1)) */
  function Geometric(p: RetryPolicy, k: nat): real {
    Product(p.base, Pow2(k) - 1.0)
  }

  function Flat(p: RetryPolicy, m: nat): real {
    m as real * p.cap
  }

  lemma GeometricStep(p: RetryPolicy, k: nat)
    ensures Geometric(p, k + 1) == Geometric(p, k) + Exponential(p, k)
  {
  }

  lemma FlatStep(p: RetryPolicy, m: nat)
    ensures Flat(p, m + 1) == Flat(p, m) + p.cap
  {
  }

  /** Closed form: base * (2 ** k - 1) while uncapped, then the cap for each remaining attempt. */
  lemma {:induction false} WindowClosedForm(p: RetryPolicy, n: nat)
    requires Sane(p)
    ensures WindowSum(p, n) == Geometric(p, Uncapped(p, n)) + Flat(p, n - Uncapped(p, n))
  {
    if n > 0 {
      var k := Uncapped(p, n - 1);
      WindowClosedForm(p, n - 1);
      if Exponential(p, n - 1) <= p.cap {
        AllUncapped(p, n - 1, n - 1);
        GeometricStep(p, n - 1);
      } else {
        FlatStep(p, n - 1 - k);
      }
    }
  }

  /** The window bounds the total of any jittered delays over its first attempts. */
  lemma {:induction false} WindowBoundsDelays(p: RetryPolicy, ds: seq<real>)
    requires Sane(p) && |ds| <= p.maxAttempts
    requires forall i :: 0 <= i < |ds| ==> 0.0 <= ds[i] <= Ceiling(p, i)
    ensures 0.0 <= Sum(ds) <= WindowSum(p, |ds|)
  {
    if ds != [] {
      var before := ds[..|ds| - 1];
      assert forall i :: 0 <= i < |before| ==> before[i] == ds[i];
      WindowBoundsDelays(p, before);
      ExponentialGrows(p, |before|, |before|);
    }
  }

  /** So `max_total_window` bounds every chain of at most max_attempts retries. */
  lemma WindowBoundsEveryChain(p: RetryPolicy, ds: seq<real>)
    requires Sane(p) && |ds| <= p.maxAttempts
    requires forall i :: 0 <= i < |ds| ==> 0.0 <= ds[i] <= Ceiling(p, i)
    ensures Sum(ds) <= WindowSum(p, p.maxAttempts)
  {
    WindowBoundsDelays(p, ds);
    WindowGrows(p, |ds|, p.maxAttempts);
  }

  lemma {:induction false} WindowGrows(p: RetryPolicy, m: nat, n: nat)
    requires Sane(p) && m <= n
    ensures WindowSum(p, m) <= WindowSum(p, n)
    decreases n
  {
    if m < n {
      WindowGrows(p, m, n - 1);
      ExponentialGrows(p, n - 1, n - 1);
    }
  }
}
