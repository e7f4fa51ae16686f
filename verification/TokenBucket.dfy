/** The rate limiter: a lazily refilled counter, and the rule over the whole call history it equals. */
module TokenBucket {
  import opened Outcomes

  datatype Limits = Limits(rate: real, capacity: real)

  predicate Sane(p: Limits) {
    p.rate >= 0.0 && p.capacity >= 0.0
  }

  /** The Redis hash: absent until the first call. */
  datatype Bucket = Bucket(tokens: real, lastRefill: real)

  datatype Request = Request(now: real, cost: real)

  function Min(a: real, b: real): real {
    if a <= b then a else b
  }

  function Max(a: real, b: real): real {
    if a >= b then a else b
  }

  /** Tokens held at `now`, before the decision. */
  function Refilled(p: Limits, b: Option<Bucket>, now: real): real {
    var tokens := if b.Some? then b.value.tokens else p.capacity;
    var lastRefill := if b.Some? then b.value.lastRefill else now;
    Min(p.capacity, tokens + Max(0.0, now - lastRefill) * p.rate)
  }

  predicate Allows(p: Limits, b: Option<Bucket>, q: Request) {
    Refilled(p, b, q.now) >= q.cost
  }

  function Next(p: Limits, b: Option<Bucket>, q: Request): Bucket {
    var tokens := Refilled(p, b, q.now);
    Bucket(if Allows(p, b, q) then tokens - q.cost else tokens, q.now)
  }

  class TokenBucketRateLimiter {
    const limits: Limits
    var info: Option<Bucket>

    constructor (limits: Limits)
      ensures this.limits == limits && info == None
    {
      this.limits := limits;
      info := None;
    }

    /** The script, which Redis runs atomically. */
    method Allow(now: real, cost: real) returns (allowed: bool)
      modifies this
      ensures allowed == Allows(limits, old(info), Request(now, cost))
      ensures info == Some(Next(limits, old(info), Request(now, cost)))
    {
      var tokens := if info.Some? then info.value.tokens else limits.capacity;
      var lastRefill := if info.Some? then info.value.lastRefill else now;
      var elapsed := if now - lastRefill > 0.0 then now - lastRefill else 0.0;
      var filled := tokens + elapsed * limits.rate;
      tokens := if limits.capacity < filled then limits.capacity else filled;
      if tokens >= cost {
        tokens := tokens - cost;
        info := Some(Bucket(tokens, now));
        return true;
      } else {
        info := Some(Bucket(tokens, now));
        return false;
      }
    }
  }

  // -- histories ----------------------------------------------------------------

  /** The bucket after a history of calls, newest last, starting from `b`. */
  function AfterFrom(p: Limits, b: Option<Bucket>, h: seq<Request>): Option<Bucket> {
    if h == [] then b else Some(Next(p, AfterFrom(p, b, h[..|h| - 1]), h[|h| - 1]))
  }

  function After(p: Limits, h: seq<Request>): Option<Bucket> {
    AfterFrom(p, None, h)
  }

  /** The script's decision on the i-th call. */
  predicate Admitted(p: Limits, h: seq<Request>, i: nat)
    requires i < |h|
  {
    Allows(p, After(p, h[..i]), h[i])
  }

  /** Tokens held just before the i-th decision. */
  function Held(p: Limits, h: seq<Request>, i: nat): real
    requires i < |h|
  {
    Refilled(p, After(p, h[..i]), h[i].now)
  }

  ghost predicate Monotone(h: seq<Request>) {
    forall i, j :: 0 <= i <= j < |h| ==> h[i].now <= h[j].now
  }

  // -- the whole-history rule -----------------------------------------------------

  /** Cost admitted by calls j up to i under the decisions `ds`. */
  function Spent(h: seq<Request>, ds: seq<bool>, j: nat, i: nat): real
    requires j <= i <= |h| && i <= |ds|
    decreases i
  {
    if i == j then 0.0 else Spent(h, ds, j, i - 1) + (if ds[i - 1] then h[i - 1].cost else 0.0)
  }

  /** What the window from call j to call i leaves for call i. */
  function Allowance(p: Limits, h: seq<Request>, ds: seq<bool>, j: nat, i: nat): real
    requires j <= i < |h| && i <= |ds|
  {
    p.capacity + p.rate * (h[i].now - h[j].now) - Spent(h, ds, j, i)
  }

  /** The rule: a call is admitted if no window of history ending at it would exceed its allowance. */
  ghost predicate RuleAdmits(p: Limits, h: seq<Request>, ds: seq<bool>, i: nat)
    requires i < |h| && i <= |ds|
  {
    forall j :: 0 <= j <= i ==> h[i].cost <= Allowance(p, h, ds, j, i)
  }

  /** The decisions of the rule, which remembers every call and keeps no counter. */
  ghost function RuleDecisions(p: Limits, h: seq<Request>, n: nat): (ds: seq<bool>)
    requires n <= |h|
    ensures |ds| == n
  {
    if n == 0 then
      []
    else
      var ds := RuleDecisions(p, h, n - 1);
      ds + [RuleAdmits(p, h, ds, n - 1)]
  }

  /** The decisions of the script. */
  function ScriptDecisions(p: Limits, h: seq<Request>, n: nat): (ds: seq<bool>)
    requires n <= |h|
    ensures |ds| == n
    ensures forall i :: 0 <= i < n ==> ds[i] == Admitted(p, h, i)
  {
    if n == 0 then [] else ScriptDecisions(p, h, n - 1) + [Admitted(p, h, n - 1)]
  }

  /** `x` is the least allowance over all windows ending at call i. */
  ghost predicate LeastAllowance(p: Limits, h: seq<Request>, ds: seq<bool>, i: nat, x: real)
    requires i < |h| && i <= |ds|
  {
    && (forall j :: 0 <= j <= i ==> x <= Allowance(p, h, ds, j, i))
    && (exists j :: 0 <= j <= i && x == Allowance(p, h, ds, j, i))
  }

  /** How a decision and the refill until the next call change what is available. */
  function Change(p: Limits, h: seq<Request>, i: nat, admitted: bool): real
    requires i + 1 < |h|
  {
    Gain(p, h[i + 1].now - h[i].now) - (if admitted then h[i].cost else 0.0)
  }

  function Gain(p: Limits, elapsed: real): real {
    p.rate * elapsed
  }

  lemma AllowanceStep(p: Limits, h: seq<Request>, ds: seq<bool>, j: nat, i: nat)
    requires j <= i && i + 1 < |h| && i + 1 <= |ds|
    ensures Allowance(p, h, ds, j, i + 1) == Allowance(p, h, ds, j, i) + Change(p, h, i, ds[i])
  {
  }

  lemma AfterStep(p: Limits, h: seq<Request>, i: nat)
    requires i < |h|
    ensures After(p, h[..i + 1]) == Some(Next(p, After(p, h[..i]), h[i]))
  {
    hide Next, Refilled;
    assert h[..i + 1][..i] == h[..i];
  }

  lemma HeldStep(p: Limits, h: seq<Request>, i: nat)
    requires i + 1 < |h| && h[i].now <= h[i + 1].now
    ensures Held(p, h, i + 1) == Min(p.capacity, Held(p, h, i) + Change(p, h, i, Admitted(p, h, i)))
  {
    hide Gain, AfterFrom, After, Refilled;
    AfterStep(p, h, i);
    RefilledForward(p, Next(p, After(p, h[..i]), h[i]), h[i + 1].now);
  }

  lemma RefilledForward(p: Limits, b: Bucket, now: real)
    requires b.lastRefill <= now
    ensures Refilled(p, Some(b), now) == Min(p.capacity, b.tokens + Gain(p, now - b.lastRefill))
  {
  }

  lemma LeastStep(p: Limits, h: seq<Request>, ds: seq<bool>, i: nat, x: real)
    requires i + 1 < |h| && i + 1 <= |ds| && LeastAllowance(p, h, ds, i, x)
    ensures LeastAllowance(p, h, ds, i + 1, Min(p.capacity, x + Change(p, h, i, ds[i])))
  {
    var d := Change(p, h, i, ds[i]);
    forall j: nat | j <= i ensures Allowance(p, h, ds, j, i + 1) == Allowance(p, h, ds, j, i) + d {
      AllowanceStep(p, h, ds, j, i);
    }
    OwnAllowance(p, h, ds, i + 1);
    var k :| 0 <= k <= i && x == Allowance(p, h, ds, k, i);
    var y := Min(p.capacity, x + d);
    forall j: nat {:trigger Allowance(p, h, ds, j, i + 1)} | j <= i + 1 ensures y <= Allowance(p, h, ds, j, i + 1) {
      if j <= i {
        assert x <= Allowance(p, h, ds, j, i);
      }
    }
    if p.capacity <= x + d {
      assert y == Allowance(p, h, ds, i + 1, i + 1);
    } else {
      assert y == Allowance(p, h, ds, k, i + 1);
    }
  }

  lemma OwnAllowance(p: Limits, h: seq<Request>, ds: seq<bool>, i: nat)
    requires i < |h| && i <= |ds|
    ensures Allowance(p, h, ds, i, i) == p.capacity
  {
  }

  /** Exactness: with a clock that never steps back, the tokens held just before a decision are the
      least allowance over every window of the history that ends there. */
  lemma {:induction false} HeldIsLeastAllowance(p: Limits, h: seq<Request>, i: nat)
    requires Sane(p) && Monotone(h) && i < |h|
    ensures LeastAllowance(p, h, ScriptDecisions(p, h, |h|), i, Held(p, h, i))
  {
    var ds := ScriptDecisions(p, h, |h|);
    if i == 0 {
      OwnAllowance(p, h, ds, 0);
      assert After(p, h[..0]) == None;
    } else {
      HeldIsLeastAllowance(p, h, i - 1);
      HeldStep(p, h, i - 1);
      LeastStep(p, h, ds, i - 1, Held(p, h, i - 1));
    }
  }

  lemma {:induction false} SpentDepends(h: seq<Request>, ds: seq<bool>, ds': seq<bool>, j: nat, i: nat)
    requires j <= i <= |h| && i <= |ds| && i <= |ds'| && ds[..i] == ds'[..i]
    ensures Spent(h, ds, j, i) == Spent(h, ds', j, i)
    decreases i
  {
    if j < i {
      assert ds[i - 1] == ds[..i][i - 1] == ds'[i - 1];
      assert ds[..i - 1] == ds[..i][..i - 1] == ds'[..i - 1];
      SpentDepends(h, ds, ds', j, i - 1);
    }
  }

  /** The script refines the rule: on every history with a clock that never steps back, the O(1)
      counter takes exactly the decisions of the rule that re-reads the whole history. */
  lemma {:induction false} ScriptRefinesRule(p: Limits, h: seq<Request>, n: nat)
    requires Sane(p) && Monotone(h) && n <= |h|
    ensures ScriptDecisions(p, h, n) == RuleDecisions(p, h, n)
  {
    hide Refilled, AfterFrom, LeastAllowance, Spent;
    if n > 0 {
      var i := n - 1;
      ScriptRefinesRule(p, h, i);
      var ds, all := ScriptDecisions(p, h, i), ScriptDecisions(p, h, |h|);
      HeldIsLeastAllowance(p, h, i);
      assert ds[..i] == all[..i];
      forall j: nat | j <= i ensures Allowance(p, h, ds, j, i) == Allowance(p, h, all, j, i) {
        SpentDepends(h, ds, all, j, i);
      }
      assert RuleAdmits(p, h, ds, i) <==> RuleAdmits(p, h, all, i);
      LeastDecides(p, h, all, i, Held(p, h, i));
    }
  }

  lemma LeastDecides(p: Limits, h: seq<Request>, ds: seq<bool>, i: nat, x: real)
    requires i < |h| && i <= |ds| && LeastAllowance(p, h, ds, i, x)
    ensures RuleAdmits(p, h, ds, i) <==> x >= h[i].cost
  {
  }

  // -- any clock ------------------------------------------------------------------

  ghost predicate CostsNonNegative(h: seq<Request>) {
    forall i :: 0 <= i < |h| ==> h[i].cost >= 0.0
  }

  /** Time gained over a history, counting forward steps only. */
  function Advance(h: seq<Request>): real {
    if |h| <= 1 then 0.0 else Advance(h[..|h| - 1]) + Max(0.0, h[|h| - 1].now - h[|h| - 2].now)
  }

  function TotalAdmitted(p: Limits, h: seq<Request>): real {
    if h == [] then
      0.0
    else
      TotalAdmitted(p, h[..|h| - 1]) + (if Allows(p, After(p, h[..|h| - 1]), h[|h| - 1]) then h[|h| - 1].cost else 0.0)
  }

  /** A refill adds at most what the time gained earns. */
  lemma RefillBound(p: Limits, b: Bucket, now: real)
    requires Sane(p) && b.tokens >= 0.0
    ensures 0.0 <= Refilled(p, Some(b), now) <= p.capacity
    ensures Refilled(p, Some(b), now) <= b.tokens + RefillFor(p, now - b.lastRefill)
  {
  }

  /** A decision moves tokens from the counter to the admitted total, or neither changes. */
  lemma DecisionConserves(p: Limits, h: seq<Request>)
    requires h != [] && h[|h| - 1].cost >= 0.0
    ensures var before := h[..|h| - 1];
            var held := Refilled(p, After(p, before), h[|h| - 1].now);
            && TotalAdmitted(p, h) + After(p, h).value.tokens == TotalAdmitted(p, before) + held
            && After(p, h).value.tokens <= held
            && (held >= 0.0 ==> After(p, h).value.tokens >= 0.0)
            && After(p, h).value.lastRefill == h[|h| - 1].now
  {
  }

  /** Tokens that the forward steps of the clock earn. */
  function Earned(p: Limits, h: seq<Request>): real {
    if |h| <= 1 then 0.0 else Earned(p, h[..|h| - 1]) + RefillFor(p, h[|h| - 1].now - h[|h| - 2].now)
  }

  function RefillFor(p: Limits, elapsed: real): real {
    p.rate * Max(0.0, elapsed)
  }

  lemma {:induction false} EarnedIsRateTimesAdvance(p: Limits, h: seq<Request>)
    ensures Earned(p, h) == p.rate * Advance(h)
  {
    if |h| > 1 {
      EarnedIsRateTimesAdvance(p, h[..|h| - 1]);
      var gain := Max(0.0, h[|h| - 1].now - h[|h| - 2].now);
      assert p.rate * (Advance(h[..|h| - 1]) + gain) == p.rate * Advance(h[..|h| - 1]) + p.rate * gain;
    }
  }

  ghost predicate WithinBudget(p: Limits, h: seq<Request>)
    requires h != []
  {
    var b := After(p, h).value;
    && 0.0 <= b.tokens <= p.capacity
    && b.lastRefill == h[|h| - 1].now
    && TotalAdmitted(p, h) + b.tokens <= p.capacity + Earned(p, h)
  }

  lemma {:induction false} EarnedBound(p: Limits, h: seq<Request>)
    requires Sane(p) && CostsNonNegative(h) && h != []
    ensures WithinBudget(p, h)
  {
    var n := |h| - 1;
    DecisionConserves(p, h);
    if n > 0 {
      EarnedBound(p, h[..n]);
      var b := After(p, h[..n]).value;
      RefillBound(p, b, h[n].now);
    } else {
      FirstCall(p, h);
    }
  }

  lemma FirstCall(p: Limits, h: seq<Request>)
    requires |h| == 1
    ensures TotalAdmitted(p, h[..0]) == 0.0 && Refilled(p, After(p, h[..0]), h[0].now) == p.capacity
  {
  }

  /** Whatever the clock does, the counter stays within [0, capacity], and what has been admitted plus
      what is left never exceeds the capacity plus the refill for the time gained. */
  lemma AnyClockBound(p: Limits, h: seq<Request>)
    requires Sane(p) && CostsNonNegative(h) && h != []
    ensures 0.0 <= After(p, h).value.tokens <= p.capacity
    ensures After(p, h).value.lastRefill == h[|h| - 1].now
    ensures TotalAdmitted(p, h) + After(p, h).value.tokens <= p.capacity + p.rate * Advance(h)
  {
    EarnedBound(p, h);
    EarnedIsRateTimesAdvance(p, h);
  }

  // -- rejected calls ---------------------------------------------------------------

  /** The counter after a rejected call reads, at every later time, what it would have read without
      it: exactly when the clock did not step back, or there was nothing to gain by rewinding. */
  lemma RejectionInvisibleIff(p: Limits, b: Bucket, q: Request)
    requires Sane(p) && !Allows(p, Some(b), q)
    ensures (forall now: real :: now >= q.now ==>
               Refilled(p, Some(Next(p, Some(b), q)), now) == Refilled(p, Some(b), now))
            <==> (q.now >= b.lastRefill || b.tokens >= p.capacity || p.rate == 0.0)
  {
    var b' := Next(p, Some(b), q);
    if q.now >= b.lastRefill {
      forall now: real | now >= q.now ensures Refilled(p, Some(b'), now) == Refilled(p, Some(b), now) {
        assert (now - b.lastRefill) * p.rate == (now - q.now) * p.rate + (q.now - b.lastRefill) * p.rate;
        assert (now - q.now) * p.rate >= 0.0 && (q.now - b.lastRefill) * p.rate >= 0.0;
      }
    } else if b.tokens >= p.capacity || p.rate == 0.0 {
      forall now: real | now >= q.now ensures Refilled(p, Some(b'), now) == Refilled(p, Some(b), now) {
        assert (now - q.now) * p.rate >= 0.0;
        assert Max(0.0, now - b.lastRefill) * p.rate >= 0.0;
      }
    } else {
      assert (b.lastRefill - q.now) * p.rate > 0.0;
      assert Refilled(p, Some(b), b.lastRefill) == b.tokens;
      assert Refilled(p, Some(b'), b.lastRefill) > b.tokens;
    }
  }

  /** Two counters that will read the same from `since` on. */
  ghost predicate Alike(p: Limits, a: Option<Bucket>, b: Option<Bucket>, since: real) {
    forall now: real :: now >= since ==> Refilled(p, a, now) == Refilled(p, b, now)
  }

  lemma RejectionLeavesAlike(p: Limits, h: seq<Request>, q: Request)
    requires Sane(p) && Monotone(h + [q]) && !Allows(p, After(p, h), q)
    ensures Alike(p, After(p, h + [q]), After(p, h), q.now)
  {
    assert (h + [q])[..|h|] == h;
    if h == [] {
      FullStaysFull(p, q);
    } else {
      assert (h + [q])[|h| - 1].now <= (h + [q])[|h|].now;
      RejectionInvisibleIff(p, After(p, h).value, q);
    }
  }

  lemma FullStaysFull(p: Limits, q: Request)
    requires Sane(p) && !Allows(p, None, q)
    ensures Alike(p, Some(Next(p, None, q)), None, q.now)
  {
  }

  /** The decisions on `later` by a script that starts from bucket `b`. */
  function DecisionsFrom(p: Limits, b: Option<Bucket>, later: seq<Request>): (ds: seq<bool>)
    ensures |ds| == |later|
  {
    if later == [] then
      []
    else
      var n := |later| - 1;
      DecisionsFrom(p, b, later[..n]) + [Allows(p, AfterFrom(p, b, later[..n]), later[n])]
  }

  /** Counters that read the same decide the same, and soon are the same. */
  lemma {:induction false} AlikeDecideAlike(p: Limits, a: Option<Bucket>, b: Option<Bucket>, since: real,
                                            later: seq<Request>)
    requires Alike(p, a, b, since) && (forall k :: 0 <= k < |later| ==> later[k].now >= since)
    ensures DecisionsFrom(p, a, later) == DecisionsFrom(p, b, later)
    ensures later != [] ==> AfterFrom(p, a, later) == AfterFrom(p, b, later)
  {
    if later != [] {
      var n := |later| - 1;
      AlikeDecideAlike(p, a, b, since, later[..n]);
      if n == 0 {
        assert later[..n] == [];
      }
    }
  }

  lemma {:induction false} HistoriesCompose(p: Limits, h: seq<Request>, later: seq<Request>)
    ensures After(p, h + later) == AfterFrom(p, After(p, h), later)
  {
    if later == [] {
      assert h + later == h;
    } else {
      HistoriesCompose(p, h, later[..|later| - 1]);
      assert (h + later)[..|h + later| - 1] == h + later[..|later| - 1];
    }
  }

  lemma {:induction false} DecisionsCompose(p: Limits, h: seq<Request>, later: seq<Request>)
    ensures ScriptDecisions(p, h + later, |h + later|)[|h|..] == DecisionsFrom(p, After(p, h), later)
  {
    var all := h + later;
    if later != [] {
      var n := |later| - 1;
      DecisionsCompose(p, h, later[..n]);
      HistoriesCompose(p, h, later[..n]);
      assert all[..|all| - 1] == h + later[..n];
      DecisionsOfPrefix(p, all, |all| - 1);
    }
  }

  lemma {:induction false} DecisionsOfPrefix(p: Limits, h: seq<Request>, n: nat)
    requires n <= |h|
    ensures ScriptDecisions(p, h, n) == ScriptDecisions(p, h[..n], n)
  {
    forall i | 0 <= i < n ensures Admitted(p, h, i) == Admitted(p, h[..n], i) {
      assert h[..n][..i] == h[..i];
    }
  }

  /** With a clock that never steps back, rejected calls are invisible: deleting one anywhere in a
      history changes no later decision, and not the counter either once another call has been made. */
  lemma RejectedCallIsInvisible(p: Limits, h: seq<Request>, q: Request, later: seq<Request>)
    requires Sane(p) && Monotone(h + [q] + later) && !Allows(p, After(p, h), q)
    ensures var with, without := h + [q] + later, h + later;
            && ScriptDecisions(p, with, |with|)[|h| + 1..] == ScriptDecisions(p, without, |without|)[|h|..]
            && (later != [] ==> After(p, with) == After(p, without))
  {
    var all := h + [q] + later;
    assert Monotone(h + [q]) by {
      assert forall i :: 0 <= i <= |h| ==> (h + [q])[i] == all[i];
    }
    RejectionLeavesAlike(p, h, q);
    forall k | 0 <= k < |later| ensures later[k].now >= q.now {
      assert all[|h|].now <= all[|h| + 1 + k].now;
    }
    AlikeDecideAlike(p, After(p, h + [q]), After(p, h), q.now, later);
    HistoriesCompose(p, h + [q], later);
    HistoriesCompose(p, h, later);
    DecisionsCompose(p, h + [q], later);
    DecisionsCompose(p, h, later);
  }
}
