/** The circuit breaker's failure window, kept pruned in a sorted set. */
module Breaker {
  import opened Outcomes

  datatype Circuit = Closed | Open

  /** Failure times of a history, one per distinct time: the member of the sorted set is the time. */
  function Times(h: seq<real>): (times: set<real>)
    ensures forall t :: t in times <==> t in h
  {
    set i | 0 <= i < |h| :: h[i]
  }

  /** The times a count over [now - window, now] sees. */
  function InWindow(times: set<real>, window: real, now: real): set<real> {
    set t | t in times && now - window <= t <= now
  }

  function Younger(times: set<real>, bound: real): set<real> {
    set t | t in times && t > bound
  }

  /** The sorted set after a history of failures: each adds its time, then prunes. */
  function Pruned(h: seq<real>, window: real): set<real> {
    if h == [] then
      {}
    else
      var now := h[|h| - 1];
      Younger(Pruned(h[..|h| - 1], window) + {now}, now - window)
  }

  ghost predicate Monotone(h: seq<real>) {
    forall i, j :: 0 <= i <= j < |h| ==> h[i] <= h[j]
  }

  /** `t` was recorded, and no failure from then on came a whole window later. */
  ghost predicate Stands(h: seq<real>, window: real, t: real) {
    exists i :: 0 <= i < |h| && h[i] == t && forall j :: i <= j < |h| ==> h[j] - window < t
  }

  /** What pruning leaves under any clock. */
  lemma {:induction false} PrunedMeans(h: seq<real>, window: real)
    ensures forall t :: t in Pruned(h, window) <==> Stands(h, window, t)
  {
    if h != [] {
      var before, now := h[..|h| - 1], h[|h| - 1];
      PrunedMeans(before, window);
      forall t ensures Stands(h, window, t) <==> (t == now || Stands(before, window, t)) && now - window < t {
        if t == now && now - window < t {
          assert h[|h| - 1] == t;
        } else if i :| 0 <= i < |before| && before[i] == t && forall j :: i <= j < |before| ==> before[j] - window < t {
          assert h[i] == t && forall j :: i <= j < |before| ==> h[j] == before[j];
        }
        if i :| 0 <= i < |h| && h[i] == t && forall j :: i <= j < |h| ==> h[j] - window < t {
          assert h[|h| - 1] == now;
          if i < |before| {
            assert before[i] == t && forall j :: i <= j < |before| ==> before[j] == h[j];
          }
        }
      }
    }
  }

  /** There are at least `n` distinct times of the history in [now - window, now]. */
  ghost predicate Enough(h: seq<real>, window: real, now: real, n: int) {
    exists ts: set<real> :: |ts| >= n && forall t :: t in ts ==> t in h && now - window <= t <= now
  }

  lemma EnoughIff(h: seq<real>, window: real, now: real, n: int)
    ensures Enough(h, window, now, n) <==> |InWindow(Times(h), window, now)| >= n
  {
    var all := InWindow(Times(h), window, now);
    if ts: set<real> :| |ts| >= n && forall t :: t in ts ==> t in h && now - window <= t <= now {
      assert all == ts + (all - ts);
    }
    assert forall t :: t in all ==> t in h && now - window <= t <= now;
  }

  class CircuitBreaker {
    const threshold: int
    const window: real
    var failures: set<real>
    var state: Circuit
    var lastFailure: Option<real>
    ghost var history: seq<real>

    ghost predicate Valid()
      reads this
    {
      failures == Pruned(history, window)
    }

    constructor (threshold: int, window: real)
      ensures Valid() && history == [] && state == Closed
      ensures this.threshold == threshold && this.window == window
    {
      this.threshold, this.window := threshold, window;
      failures, state, lastFailure, history := {}, Closed, None, [];
    }

    /** ZADD and ZREMRANGEBYSCORE in one pipeline. */
    method RecordFailure(now: real)
      requires Valid()
      modifies this
      ensures Valid() && history == old(history) + [now]
      ensures state == old(state) && lastFailure == old(lastFailure)
    {
      failures := failures + {now};
      failures := Younger(failures, now - window);
      history := history + [now];
      assert history[..|history| - 1] == old(history);
    }

    /** With a clock that has not stepped back and has moved since the last failure, trips exactly
        when the whole, unpruned history has enough distinct failure times in the window. */
    method MaybeTrip(now: real) returns (tripped: bool)
      requires Valid()
      modifies this`state, this`lastFailure
      ensures Valid() && history == old(history)
      ensures tripped <==> |InWindow(Pruned(history, window), window, now)| >= threshold
      ensures Monotone(history) && (history != [] ==> now > history[|history| - 1]) ==>
                (tripped <==> Enough(history, window, now, threshold))
      ensures tripped ==> state == Open && lastFailure == Some(now)
      ensures !tripped ==> state == old(state) && lastFailure == old(lastFailure)
    {
      if Monotone(history) && (history != [] ==> now > history[|history| - 1]) {
        PruningIsInvisible(history, window, now);
        EnoughIff(history, window, now, threshold);
      }
      var count := |InWindow(failures, window, now)|;
      if count >= threshold {
        state, lastFailure := Open, Some(now);
        return true;
      }
      return false;
    }

    method Reset()
      modifies this
      ensures Valid() && history == [] && state == Closed && lastFailure == None
    {
      failures, state, lastFailure, history := {}, Closed, None, [];
    }
  }

  /** With a clock that never steps back, what is left is exactly what is younger than the window at
      the last failure. */
  lemma PrunedIsRecent(h: seq<real>, window: real)
    requires Monotone(h) && h != []
    ensures forall t :: t in Pruned(h, window) <==> t in h && t > h[|h| - 1] - window
    ensures Pruned(h, window) == Younger(Times(h), h[|h| - 1] - window)
  {
    hide Pruned;
    var last := |h| - 1;
    PrunedMeans(h, window);
    forall t ensures Stands(h, window, t) <==> t in h && t > h[last] - window {
      if i :| 0 <= i < |h| && h[i] == t && forall j :: i <= j < |h| ==> h[j] - window < t {
        assert h[last] - window < t;
      }
      if i :| 0 <= i < |h| && h[i] == t && h[last] - window < t {
        assert forall j :: i <= j < |h| ==> h[j] <= h[last];
      }
    }
  }

  /** After the last prune, the pruned set and the full history hold the same in-window times; at the
      very instant of the last prune they differ by the boundary time alone. */
  lemma PruningIsInvisible(h: seq<real>, window: real, now: real)
    requires Monotone(h) && (h != [] ==> now >= h[|h| - 1])
    ensures var boundary := if h != [] && now == h[|h| - 1] then {now - window} else {};
            InWindow(Pruned(h, window), window, now) == InWindow(Times(h), window, now) - boundary
  {
    if h != [] {
      PrunedIsRecent(h, window);
    }
  }

  /** So the two counts agree if and only if time has passed since the last prune, or no failure lies
      exactly on the boundary. */
  lemma CountsAgreeIff(h: seq<real>, window: real, now: real)
    requires Monotone(h) && h != [] && now >= h[|h| - 1] && window >= 0.0
    ensures |InWindow(Pruned(h, window), window, now)| == |InWindow(Times(h), window, now)| <==>
            (now > h[|h| - 1] || now - window !in Times(h))
  {
    PruningIsInvisible(h, window, now);
    var full, kept := InWindow(Times(h), window, now), InWindow(Pruned(h, window), window, now);
    if now == h[|h| - 1] && now - window in Times(h) {
      assert full == kept + {now - window};
    } else {
      assert kept == full;
    }
  }

  /** The breaker decides differently from the simple definition only at the instant of the last
      prune, when a failure lies on the boundary and makes exactly the threshold. */
  lemma DecisionsAgreeIff(h: seq<real>, window: real, now: real, threshold: int)
    requires Monotone(h) && h != [] && now >= h[|h| - 1] && window >= 0.0
    ensures (|InWindow(Pruned(h, window), window, now)| >= threshold <==>
             |InWindow(Times(h), window, now)| >= threshold) <==>
            !(now == h[|h| - 1] && now - window in Times(h) && |InWindow(Times(h), window, now)| == threshold)
  {
    PruningIsInvisible(h, window, now);
    CountsAgreeIff(h, window, now);
    if now == h[|h| - 1] && now - window in Times(h) {
      assert InWindow(Times(h), window, now) == InWindow(Pruned(h, window), window, now) + {now - window};
    }
  }
}
