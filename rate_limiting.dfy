/**
 * The checkout endpoint's fixed-window, per-client rate limiter: a table from
 * client key to a request count and the time its window closes.  Time is an
 * integer number of milliseconds (the value `Date.now()` would return); the
 * clock is an input of every call.
 */
module RateLimiting {

  /** `RATE_LIMIT`: requests admitted per window. */
  const Limit: int := 5
  /** `RATE_WINDOW`: window length in milliseconds. */
  const WindowMs: int := 60 * 1000

  /** One table entry, `{ count, resetAt }`. */
  datatype Window = Window(count: int, resetAt: int)

  /** What `checkRateLimit` returns: `{ allowed: true }` or `{ allowed: false, retryAfter }`. */
  datatype RateCheck = Allowed | Denied(retryAfter: int)

  /** The decision together with the table as it is after the call. */
  datatype Step = Step(result: RateCheck, limits: map<string, Window>)

  /** `Math.ceil(n / d)` for a positive integer divisor. */
  function CeilDiv(n: int, d: int): (r: int)
    requires d > 0
    ensures d * (r - 1) < n <= d * r
  {
    -((-n) / d)
  }

  /** One call of `checkRateLimit(ip)` at time `now` against the table `limits`. */
  function Check(limits: map<string, Window>, ip: string, now: int): (r: Step)
    ensures r.result.Denied? ==>
      ip in limits && now <= limits[ip].resetAt && limits[ip].count >= Limit && r.limits == limits
    ensures r.result.Allowed? ==> ip in r.limits && r.limits.Keys == limits.Keys + {ip}
  {
    if ip !in limits || now > limits[ip].resetAt then
      Step(Allowed, limits[ip := Window(1, now + WindowMs)])
    else if limits[ip].count >= Limit then
      Step(Denied(CeilDiv(limits[ip].resetAt - now, 1000)), limits)
    else
      Step(Allowed, limits[ip := limits[ip].(count := limits[ip].count + 1)])
  }

  /** The table invariant the limiter keeps: every count lies in 1..Limit. */
  predicate CountsInRange(limits: map<string, Window>) {
    forall k :: k in limits ==> 1 <= limits[k].count <= Limit
  }

  /** No window closes later than one window length after `now`. */
  predicate WindowsEndBy(limits: map<string, Window>, now: int) {
    forall k :: k in limits ==> limits[k].resetAt <= now + WindowMs
  }

  /**
   * The sequential rate limiter: the module-level `rateLimits` map of the
   * checkout endpoint, with `checkRateLimit` as its one operation.
   */
  class RateLimiter {
    var limits: map<string, Window>

    constructor ()
      ensures limits == map[]
    {
      limits := map[];
    }

    method CheckRateLimit(ip: string, now: int) returns (r: RateCheck)
      modifies this
      ensures Step(r, limits) == Check(old(limits), ip, now)
      ensures old(CountsInRange(limits)) ==> CountsInRange(limits)
      ensures forall k :: k != ip ==> (k in limits <==> k in old(limits))
      ensures forall k :: k != ip && k in old(limits) ==> limits[k] == old(limits)[k]
    {
      if ip !in limits || now > limits[ip].resetAt {
        limits := limits[ip := Window(1, now + WindowMs)];
        return Allowed;
      }
      var limit := limits[ip];
      if limit.count >= Limit {
        var retryAfter := CeilDiv(limit.resetAt - now, 1000);
        return Denied(retryAfter);
      }
      limits := limits[ip := limit.(count := limit.count + 1)];
      return Allowed;
    }
  }

  /**
   * A first request, or one strictly after the window closed, opens a new
   * window with count 1 and is allowed; a request at exactly `resetAt` is
   * still inside the old window.
   */
  lemma NewWindow(limits: map<string, Window>, ip: string, now: int)
    requires CountsInRange(limits)
    ensures (ip !in limits || now > limits[ip].resetAt) <==>
      (Check(limits, ip, now).result == Allowed &&
       Check(limits, ip, now).limits[ip] == Window(1, now + WindowMs))
  {
  }

  /**
   * Inside the window a request below the limit is allowed and adds exactly
   * one to the count; at or above the limit it is denied and the table is
   * left as it was.
   */
  lemma InsideWindow(limits: map<string, Window>, ip: string, now: int)
    requires ip in limits && now <= limits[ip].resetAt
    ensures limits[ip].count < Limit ==>
      Check(limits, ip, now) == Step(Allowed, limits[ip := Window(limits[ip].count + 1, limits[ip].resetAt)])
    ensures limits[ip].count >= Limit ==>
      Check(limits, ip, now).result.Denied? && Check(limits, ip, now).limits == limits
  {
  }

  /** A call never touches the entry of any other client key. */
  lemma OtherKeysUntouched(limits: map<string, Window>, ip: string, now: int, other: string)
    requires other != ip
    ensures other in Check(limits, ip, now).limits <==> other in limits
    ensures other in limits ==> Check(limits, ip, now).limits[other] == limits[other]
  {
  }

  /** The limiter keeps every count in 1..Limit. */
  lemma CheckKeepsCountsInRange(limits: map<string, Window>, ip: string, now: int)
    requires CountsInRange(limits)
    ensures CountsInRange(Check(limits, ip, now).limits)
  {
  }

  /**
   * Over a clock that never runs backwards, no window ends more than one
   * window length after the current time.
   */
  lemma CheckKeepsWindowsEndBy(limits: map<string, Window>, ip: string, before: int, now: int)
    requires WindowsEndBy(limits, before) && before <= now
    ensures WindowsEndBy(Check(limits, ip, now).limits, now)
  {
  }

  /**
   * The retry hint of a denial is `ceil((resetAt - now) / 1000)`: never
   * negative, positive exactly when the window has not reached its end, and
   * at most 60 when the window closes no later than a minute from now.
   */
  lemma RetryAfterBounds(limits: map<string, Window>, ip: string, now: int)
    requires Check(limits, ip, now).result.Denied?
    ensures ip in limits
    ensures Check(limits, ip, now).result.retryAfter == CeilDiv(limits[ip].resetAt - now, 1000)
    ensures 0 <= Check(limits, ip, now).result.retryAfter
    ensures Check(limits, ip, now).result.retryAfter > 0 <==> now < limits[ip].resetAt
    ensures limits[ip].resetAt <= now + WindowMs ==> Check(limits, ip, now).result.retryAfter <= 60
  {
    var r := Check(limits, ip, now).result.retryAfter;
    var n := limits[ip].resetAt - now;
    assert 1000 * (r - 1) < n <= 1000 * r;
  }

  /** The decisions of successive calls for one client key at the times `times`. */
  function Decisions(limits: map<string, Window>, ip: string, times: seq<int>): (ds: seq<RateCheck>)
    ensures |ds| == |times|
    decreases |times|
  {
    if times == [] then []
    else
      var step := Check(limits, ip, times[0]);
      [step.result] + Decisions(step.limits, ip, times[1..])
  }

  /** The number of allowed decisions. */
  function CountAllowed(ds: seq<RateCheck>): (n: nat)
    ensures n <= |ds|
  {
    if ds == [] then 0 else (if ds[0] == Allowed then 1 else 0) + CountAllowed(ds[1..])
  }

  /**
   * Inside an existing window (every call at or before `resetAt`), the i-th
   * call is allowed exactly when the stored count plus i is below the limit.
   */
  lemma {:induction false} InsideWindowRun(limits: map<string, Window>, ip: string, times: seq<int>)
    requires ip in limits
    requires forall i :: 0 <= i < |times| ==> times[i] <= limits[ip].resetAt
    ensures forall i :: 0 <= i < |times| ==>
      (Decisions(limits, ip, times)[i] == Allowed <==> limits[ip].count + i < Limit)
    decreases |times|
  {
    if times != [] {
      var step := Check(limits, ip, times[0]);
      var next := step.limits;
      assert ip in next && next[ip].resetAt == limits[ip].resetAt;
      assert next[ip].count == if limits[ip].count < Limit then limits[ip].count + 1 else limits[ip].count;
      InsideWindowRun(next, ip, times[1..]);
      var ds := Decisions(limits, ip, times);
      forall i | 0 <= i < |times|
        ensures ds[i] == Allowed <==> limits[ip].count + i < Limit
      {
        if i > 0 {
          assert ds[i] == Decisions(next, ip, times[1..])[i - 1];
          assert times[1..][i - 1] == times[i];
        }
      }
    }
  }

  /**
   * A window opened by the first call of a run admits exactly the first five
   * calls that fall inside it and denies every later one, whatever the table
   * held before: the sixth call within a window is always denied.
   */
  lemma FreshWindowRun(limits: map<string, Window>, ip: string, times: seq<int>)
    requires |times| > 0
    requires ip !in limits || times[0] > limits[ip].resetAt
    requires forall i :: 0 <= i < |times| ==> times[i] <= times[0] + WindowMs
    ensures forall i :: 0 <= i < |times| ==> (Decisions(limits, ip, times)[i] == Allowed <==> i < Limit)
  {
    var first := Check(limits, ip, times[0]);
    var next := first.limits;
    assert first.result == Allowed && next[ip] == Window(1, times[0] + WindowMs);
    var rest := times[1..];
    assert forall i :: 0 <= i < |rest| ==> rest[i] <= next[ip].resetAt by {
      forall i | 0 <= i < |rest| ensures rest[i] <= next[ip].resetAt {
        assert rest[i] == times[i + 1];
      }
    }
    InsideWindowRun(next, ip, rest);
    var ds := Decisions(limits, ip, times);
    var tail := Decisions(next, ip, rest);
    assert ds == [Allowed] + tail;
    forall i | 0 <= i < |times|
      ensures ds[i] == Allowed <==> i < Limit
    {
      if i > 0 {
        assert ds[i] == tail[i - 1];
      }
    }
  }

  /** If exactly the first k decisions are allowed, min(k, |ds|) are allowed. */
  lemma {:induction false} CountAllowedPrefix(ds: seq<RateCheck>, k: nat)
    requires forall i :: 0 <= i < |ds| ==> (ds[i] == Allowed <==> i < k)
    ensures CountAllowed(ds) == if |ds| < k then |ds| else k
  {
    if ds != [] {
      if k > 0 {
        assert forall i :: 0 <= i < |ds[1..]| ==> (ds[1..][i] == Allowed <==> i < k - 1) by {
          forall i | 0 <= i < |ds[1..]| ensures ds[1..][i] == Allowed <==> i < k - 1 {
            assert ds[1..][i] == ds[i + 1];
          }
        }
        CountAllowedPrefix(ds[1..], k - 1);
      } else {
        assert forall i :: 0 <= i < |ds[1..]| ==> ds[1..][i] != Allowed by {
          forall i | 0 <= i < |ds[1..]| ensures ds[1..][i] != Allowed {
            assert ds[1..][i] == ds[i + 1];
          }
        }
        assert forall i :: 0 <= i < |ds[1..]| ==> (ds[1..][i] == Allowed <==> i < 0);
        CountAllowedPrefix(ds[1..], 0);
      }
    }
  }

  /** At most five calls of one client key are allowed in one window. */
  lemma AtMostFivePerWindow(limits: map<string, Window>, ip: string, times: seq<int>)
    requires |times| > 0
    requires ip !in limits || times[0] > limits[ip].resetAt
    requires forall i :: 0 <= i < |times| ==> times[i] <= times[0] + WindowMs
    ensures CountAllowed(Decisions(limits, ip, times)) <= Limit
    ensures |times| >= Limit ==> CountAllowed(Decisions(limits, ip, times)) == Limit
  {
    FreshWindowRun(limits, ip, times);
    CountAllowedPrefix(Decisions(limits, ip, times), Limit as nat);
  }

  /** The table after successive calls for one client key at the times `times`. */
  function Final(limits: map<string, Window>, ip: string, times: seq<int>): map<string, Window>
    decreases |times|
  {
    if times == [] then limits else Final(Check(limits, ip, times[0]).limits, ip, times[1..])
  }

  /** A run split in two is the first part followed by the second from where the first left the table. */
  lemma {:induction false} DecisionsAppend(limits: map<string, Window>, ip: string, a: seq<int>, b: seq<int>)
    ensures Decisions(limits, ip, a + b) == Decisions(limits, ip, a) + Decisions(Final(limits, ip, a), ip, b)
    decreases |a|
  {
    if a != [] {
      assert (a + b)[1..] == a[1..] + b;
      DecisionsAppend(Check(limits, ip, a[0]).limits, ip, a[1..], b);
    } else {
      assert a + b == b;
    }
  }

  lemma {:induction false} CountAllowedAppend(x: seq<RateCheck>, y: seq<RateCheck>)
    ensures CountAllowed(x + y) == CountAllowed(x) + CountAllowed(y)
  {
    if x != [] {
      assert (x + y)[1..] == x[1..] + y;
      CountAllowedAppend(x[1..], y);
    } else {
      assert x + y == y;
    }
  }

  /** Inside one window a run only raises the count, up to the limit, and keeps the window's end. */
  lemma {:induction false} InsideWindowFinal(limits: map<string, Window>, ip: string, times: seq<int>)
    requires ip in limits && limits[ip].count <= Limit
    requires forall i :: 0 <= i < |times| ==> times[i] <= limits[ip].resetAt
    ensures ip in Final(limits, ip, times)
    ensures Final(limits, ip, times)[ip] ==
      Window(if limits[ip].count + |times| < Limit then limits[ip].count + |times| else Limit, limits[ip].resetAt)
    decreases |times|
  {
    if times != [] {
      var next := Check(limits, ip, times[0]).limits;
      assert next[ip] == Window(if limits[ip].count < Limit then limits[ip].count + 1 else Limit, limits[ip].resetAt);
      InsideWindowFinal(next, ip, times[1..]);
    }
  }

  /**
   * The window is fixed, not rolling: from an empty table, one call at `t0`,
   * four at exactly `t0 + 60000` (the old window still applies there) and
   * five one millisecond later (a new window) are all allowed, so nine
   * calls are admitted within one millisecond.
   */
  lemma FixedWindowBurst(ip: string, t0: int)
    ensures var edge := t0 + WindowMs;
      CountAllowed(Decisions(map[], ip, [t0, edge, edge, edge, edge] + seq(5, _ => edge + 1))) == 10
  {
    var m0: map<string, Window> := map[];
    var edge := t0 + WindowMs;
    var early := [t0, edge, edge, edge, edge];
    var late := seq(5, _ => edge + 1);
    DecisionsAppend(m0, ip, early, late);
    FreshWindowRun(m0, ip, early);
    CountAllowedPrefix(Decisions(m0, ip, early), Limit as nat);
    var m1 := Check(m0, ip, t0).limits;
    assert m1[ip] == Window(1, edge);
    assert Final(m0, ip, early) == Final(m1, ip, early[1..]);
    InsideWindowFinal(m1, ip, early[1..]);
    var m5 := Final(m0, ip, early);
    assert m5[ip] == Window(5, edge);
    FreshWindowRun(m5, ip, late);
    CountAllowedPrefix(Decisions(m5, ip, late), Limit as nat);
    CountAllowedAppend(Decisions(m0, ip, early), Decisions(m5, ip, late));
  }
}
