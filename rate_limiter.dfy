/** The sliding-window rate limiter: a queue of admission timestamps, pruned from the front and
    appended on admission. Each `time.monotonic()` read is an explicit argument. */
module RateLimit {
  /** What is left of the queue after `while q and q[0] < cutoff: q.popleft()`. */
  function Prune(q: seq<real>, cutoff: real): (r: seq<real>)
    ensures |r| <= |q|
    decreases |q|
  {
    if q != [] && q[0] < cutoff then Prune(q[1..], cutoff) else q
  }

  /** Pruning keeps a suffix of the queue: it only ever removes entries from the front. */
  lemma {:induction false} PruneKeepsSuffix(q: seq<real>, cutoff: real)
    ensures Prune(q, cutoff) == q[|q| - |Prune(q, cutoff)|..]
    decreases |q|
  {
    if q != [] && q[0] < cutoff {
      PruneKeepsSuffix(q[1..], cutoff);
      assert q[1..][|q[1..]| - |Prune(q, cutoff)|..] == q[|q| - |Prune(q, cutoff)|..];
    }
  }

  /** Every entry pruning drops is older than `cutoff`, and what it keeps starts with an entry
      that is not. */
  lemma {:induction false} PruneDropsExpired(q: seq<real>, cutoff: real)
    ensures var r := Prune(q, cutoff);
      && (r != [] ==> r[0] >= cutoff)
      && (forall i :: 0 <= i < |q| - |r| ==> q[i] < cutoff)
    decreases |q|
  {
    if q != [] && q[0] < cutoff {
      PruneDropsExpired(q[1..], cutoff);
      var r := Prune(q, cutoff);
      forall i | 0 <= i < |q| - |r| ensures q[i] < cutoff {
        if i > 0 {
          assert q[i] == q[1..][i - 1];
        }
      }
    }
  }

  ghost predicate Sorted(q: seq<real>) {
    forall i, j :: 0 <= i <= j < |q| ==> q[i] <= q[j]
  }

  /** Reference definition: the timestamps not older than `cutoff`, wherever they stand. */
  function Unexpired(q: seq<real>, cutoff: real): seq<real> {
    if q == [] then [] else (if q[0] < cutoff then [] else [q[0]]) + Unexpired(q[1..], cutoff)
  }

  lemma {:induction false} AllUnexpired(q: seq<real>, cutoff: real)
    requires forall i :: 0 <= i < |q| ==> q[i] >= cutoff
    ensures Unexpired(q, cutoff) == q
    decreases |q|
  {
    if q != [] {
      AllUnexpired(q[1..], cutoff);
    }
  }

  /** On an ascending queue, pruning the front removes exactly the expired timestamps; a timestamp
      equal to the cutoff stays. */
  lemma {:induction false} PruneRemovesExactlyExpired(q: seq<real>, cutoff: real)
    requires Sorted(q)
    ensures Prune(q, cutoff) == Unexpired(q, cutoff)
    decreases |q|
  {
    if q != [] {
      if q[0] < cutoff {
        PruneRemovesExactlyExpired(q[1..], cutoff);
      } else {
        AllUnexpired(q, cutoff);
      }
    }
  }

  lemma PruneIdempotent(q: seq<real>, cutoff: real)
    ensures Prune(Prune(q, cutoff), cutoff) == Prune(q, cutoff)
  {
  }

  datatype Admission = Admission(allowed: bool, queue: seq<real>)

  /** One `is_allowed` step at time `now`: prune, then admit and record `now` iff there is room. */
  function Admit(q: seq<real>, now: real, limit: nat, window: int): Admission {
    var kept := Prune(q, now - window as real);
    if |kept| < limit then Admission(true, kept + [now]) else Admission(false, kept)
  }

  /** Starting from at most `limit` entries, an admission step never exceeds `limit`, and a denial
      happens only when the pruned queue is already full. */
  lemma AdmitBounded(q: seq<real>, now: real, limit: nat, window: int)
    requires |q| <= limit
    ensures |Admit(q, now, limit, window).queue| <= limit
    ensures !Admit(q, now, limit, window).allowed ==> |Admit(q, now, limit, window).queue| == limit
  {
  }

  /** A suffix of an ascending queue is ascending. */
  lemma SuffixSorted(q: seq<real>, k: nat)
    requires Sorted(q) && k <= |q|
    ensures Sorted(q[k..])
  {
    assert forall i :: 0 <= i < |q| - k ==> q[k..][i] == q[k + i];
  }

  /** A suffix of a queue bounded by `now` is bounded by `now`. */
  lemma SuffixBounded(q: seq<real>, k: nat, now: real)
    requires k <= |q| && forall i :: 0 <= i < |q| ==> q[i] <= now
    ensures forall i :: 0 <= i < |q| - k ==> q[k..][i] <= now
  {
    assert forall i :: 0 <= i < |q| - k ==> q[k..][i] == q[k + i];
  }

  /** Appending a timestamp no older than every entry keeps a queue ascending. */
  lemma AppendSorted(q: seq<real>, now: real)
    requires Sorted(q) && forall i :: 0 <= i < |q| ==> q[i] <= now
    ensures Sorted(q + [now])
  {
    var next := q + [now];
    forall i, j | 0 <= i <= j < |next| ensures next[i] <= next[j] {
      if j < |q| {
        assert next[i] == q[i] && next[j] == q[j];
      }
    }
  }

  /** With a clock that does not go backwards, the queue stays in ascending order. */
  lemma AdmitKeepsSorted(q: seq<real>, now: real, limit: nat, window: int)
    requires Sorted(q) && forall i :: 0 <= i < |q| ==> q[i] <= now
    ensures Sorted(Admit(q, now, limit, window).queue)
    ensures forall i :: 0 <= i < |Admit(q, now, limit, window).queue| ==> Admit(q, now, limit, window).queue[i] <= now
  {
    var cutoff := now - window as real;
    var kept := Prune(q, cutoff);
    PruneKeepsSuffix(q, cutoff);
    SuffixSorted(q, |q| - |kept|);
    SuffixBounded(q, |q| - |kept|, now);
    if |kept| < limit {
      AppendSorted(kept, now);
    }
  }

  /** Limit 3, window 60: three calls at once are admitted, a fourth inside the window is denied
      (also exactly at its edge), and a call after the window has passed is admitted again. */
  lemma ThreePerMinute()
    ensures Admit([], 0.0, 3, 60) == Admission(true, [0.0])
    ensures Admit([0.0], 0.0, 3, 60) == Admission(true, [0.0, 0.0])
    ensures Admit([0.0, 0.0], 0.0, 3, 60) == Admission(true, [0.0, 0.0, 0.0])
    ensures Admit([0.0, 0.0, 0.0], 30.0, 3, 60) == Admission(false, [0.0, 0.0, 0.0])
    ensures Admit([0.0, 0.0, 0.0], 60.0, 3, 60) == Admission(false, [0.0, 0.0, 0.0])
    ensures Admit([0.0, 0.0, 0.0], 61.0, 3, 60) == Admission(true, [61.0])
  {
    var full := [0.0, 0.0, 0.0];
    assert Prune([0.0], -60.0) == [0.0];
    assert Prune([0.0, 0.0], -60.0) == [0.0, 0.0];
    assert Prune(full, -30.0) == full;
    assert Prune(full, 0.0) == full;
    assert full[1..] == [0.0, 0.0] && full[1..][1..] == [0.0];
    assert Prune(full, 1.0) == [];
  }

  function Max0(x: real): real {
    if x > 0.0 then x else 0.0
  }

  /** `get_reset_time`: 0 for an empty queue, else `max(0, oldest + window - now)`. */
  function ResetTime(q: seq<real>, now: real, window: int): (r: real)
    ensures r >= 0.0
    ensures q == [] ==> r == 0.0
    ensures q != [] ==> r >= q[0] + window as real - now
  {
    if q == [] then 0.0 else Max0(q[0] + window as real - now)
  }

  /** Any time strictly after the reported reset time, the oldest entry has expired. */
  lemma ResetTimeFreesOldest(q: seq<real>, now: real, window: int, later: real)
    requires q != [] && later > now + ResetTime(q, now, window)
    ensures |Prune(q, later - window as real)| < |q|
  {
  }

  /** At exactly the reported (positive) reset time the oldest entry still counts: the limiter
      keeps timestamps equal to `now - window`. */
  lemma OldestKeptAtResetTime(q: seq<real>, now: real, window: int)
    requires q != [] && ResetTime(q, now, window) > 0.0
    ensures Prune(q, now + ResetTime(q, now, window) - window as real) == q
  {
  }

  const RateLimitStatus: int := 429
  const RateLimitCode: string := "RATE_LIMIT_EXCEEDED"

  /** The 429 `HTTPException` raised by `check_rate_limit`; its message is
      "Rate limit exceeded. Reset in <resetIn>s". */
  datatype RateLimitError = RateLimitError(status: int, code: string, resetIn: real)

  datatype Check = Admitted | Denied(error: RateLimitError)

  datatype Checked = Checked(result: Check, queue: seq<real>)

  /** The three `time.monotonic()` reads one `check_rate_limit` can make: in `is_allowed`, in
      `get_remaining` and in `get_reset_time`. The last two happen only after a denial. */
  datatype Reads = Reads(admit: real, remaining: real, reset: real)

  /** A clock that does not go back between the three reads. */
  predicate InOrder(t: Reads) {
    t.admit <= t.remaining <= t.reset
  }

  /** `check_rate_limit` on a queue: admission at the first read; or, on a denial, a second prune at
      the second read and a 429 whose reset time is measured at the third. */
  function RateCheck(q: seq<real>, t: Reads, limit: nat, window: int): Checked {
    var a := Admit(q, t.admit, limit, window);
    if a.allowed then Checked(Admitted, a.queue)
    else
      var kept := Prune(a.queue, t.remaining - window as real);
      Checked(Denied(RateLimitError(RateLimitStatus, RateLimitCode, ResetTime(kept, t.reset, window))), kept)
  }

  /** A denial records nothing: the queue afterwards is the one before, pruned at the later of the
      two cutoffs, and the reported reset time counts from the third read to the moment its oldest
      entry leaves the window. */
  lemma DenialRecordsNothing(q: seq<real>, t: Reads, limit: nat, window: int)
    requires InOrder(t)
    requires RateCheck(q, t, limit, window).result.Denied?
    ensures var c := RateCheck(q, t, limit, window);
      && c.queue == Prune(q, t.remaining - window as real)
      && (c.queue == [] ==> c.result.error.resetIn == 0.0)
      && (c.queue != [] ==> c.result.error.resetIn >= c.queue[0] + window as real - t.reset)
  {
    PruneTwice(q, t.admit - window as real, t.remaining - window as real);
  }

  /** Pruning at a cutoff and then at a later one is pruning at the later one. */
  lemma {:induction false} PruneTwice(q: seq<real>, c1: real, c2: real)
    requires c1 <= c2
    ensures Prune(Prune(q, c1), c2) == Prune(q, c2)
    decreases |q|
  {
    if q != [] && q[0] < c1 {
      PruneTwice(q[1..], c1, c2);
    }
  }

  /** When the three reads coincide, the second prune removes nothing more and the denial reports
      the queue left by `is_allowed`. */
  lemma SameInstantDenial(q: seq<real>, now: real, limit: nat, window: int)
    requires !Admit(q, now, limit, window).allowed
    ensures var c := RateCheck(q, Reads(now, now, now), limit, window);
      && c.queue == Admit(q, now, limit, window).queue
      && c.result == Denied(RateLimitError(429, "RATE_LIMIT_EXCEEDED", ResetTime(c.queue, now, window)))
  {
    PruneIdempotent(q, now - window as real);
  }

  class RateLimiter {
    const limit: nat
    const window: int
    /** Admission timestamps, oldest first. */
    var requests: seq<real>

    ghost predicate Valid()
      reads this
    {
      |requests| <= limit
    }

    constructor (limit: nat, window: int)
      ensures this.limit == limit && this.window == window
      ensures requests == [] && Valid()
    {
      this.limit := limit;
      this.window := window;
      requests := [];
    }

    /** The pruning loop shared by `is_allowed` and `get_remaining`. */
    method DropExpired(now: real)
      modifies this
      ensures requests == Prune(old(requests), now - window as real)
    {
      var cutoff := now - window as real;
      while requests != [] && requests[0] < cutoff
        invariant Prune(requests, cutoff) == Prune(old(requests), cutoff)
        decreases |requests|
      {
        requests := requests[1..];
      }
    }

    method IsAllowed(now: real) returns (allowed: bool)
      requires Valid()
      modifies this
      ensures Valid()
      ensures allowed == Admit(old(requests), now, limit, window).allowed
      ensures requests == Admit(old(requests), now, limit, window).queue
    {
      DropExpired(now);
      if |requests| < limit {
        requests := requests + [now];
        return true;
      }
      return false;
    }

    method GetRemaining(now: real) returns (remaining: nat)
      requires Valid()
      modifies this
      ensures Valid()
      ensures requests == Prune(old(requests), now - window as real)
      ensures remaining == if |requests| < limit then limit - |requests| else 0
    {
      DropExpired(now);
      remaining := if limit - |requests| > 0 then limit - |requests| else 0;
    }

    method GetResetTime(now: real) returns (reset: real)
      ensures reset == ResetTime(requests, now, window)
    {
      if requests == [] {
        return 0.0;
      }
      var oldest := requests[0];
      var resetTime := oldest + window as real - now;
      reset := if resetTime > 0.0 then resetTime else 0.0;
    }
  }

  /** `check_rate_limit(rate_limiter, ...)`: returns normally on admission; otherwise reads the
      remaining count and the reset time and reports the 429. */
  method CheckRateLimit(limiter: RateLimiter, t: Reads) returns (r: Check)
    requires limiter.Valid()
    modifies limiter
    ensures limiter.Valid()
    ensures Checked(r, limiter.requests) == RateCheck(old(limiter.requests), t, limiter.limit, limiter.window)
  {
    var allowed := limiter.IsAllowed(t.admit);
    if allowed {
      return Admitted;
    }
    var remaining := limiter.GetRemaining(t.remaining);
    var resetTime := limiter.GetResetTime(t.reset);
    r := Denied(RateLimitError(RateLimitStatus, RateLimitCode, resetTime));
  }
}
