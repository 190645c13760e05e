/**
 The per-IP token bucket (crates/beacon-api/src/rate_limit.rs). A bucket holds at most
 `capacity` tokens and gains `capacity / 60` a second; a check spends one. Instants are real
 seconds. A run is the sequence of checks in the order they took the lock.
 */
module RateLimiting {
  datatype Bucket = Bucket(tokens: real, lastRefill: real)

  datatype Answer = Accepted | RetryAfter(seconds: nat)

  datatype Request = Request(ip: nat, at: real)

  type Buckets = map<nat, Bucket>

  function Rate(capacity: nat): real {
    capacity as real / 60.0
  }

  function MinReal(x: real, y: real): real {
    if x < y then x else y
  }

  function Ceil(x: real): int {
    -((-x).Floor)
  }

  /** What a check at `at` finds in the bucket: elapsed time counts only forwards. */
  function Level(capacity: nat, m: Buckets, ip: nat, at: real): real {
    if ip !in m then capacity as real
    else
      var elapsed := if at > m[ip].lastRefill then at - m[ip].lastRefill else 0.0;
      MinReal(m[ip].tokens + elapsed * Rate(capacity), capacity as real)
  }

  function WaitFor(capacity: nat, level: real): nat
    requires capacity > 0
  {
    var secs := Ceil((1.0 - level) / Rate(capacity));
    if secs < 1 then 1 else secs
  }

  function AnswerTo(capacity: nat, m: Buckets, r: Request): Answer
    requires capacity > 0
  {
    var level := Level(capacity, m, r.ip, r.at);
    if level >= 1.0 then Accepted else RetryAfter(WaitFor(capacity, level))
  }

  function Checked(capacity: nat, m: Buckets, r: Request): Buckets {
    var level := Level(capacity, m, r.ip, r.at);
    m[r.ip := Bucket(if level >= 1.0 then level - 1.0 else level, r.at)]
  }

  class RateLimiter {
    const capacity: nat
    const refillPerSec: real := Rate(capacity)
    var buckets: Buckets

    constructor (perMinute: nat)
      ensures capacity == perMinute && buckets == map[]
    {
      capacity := perMinute;
      buckets := map[];
    }

    method Check(ip: nat, now: real) returns (answer: Answer)
      requires capacity > 0
      modifies this
      ensures answer == AnswerTo(capacity, old(buckets), Request(ip, now))
      ensures buckets == Checked(capacity, old(buckets), Request(ip, now))
    {
      assert refillPerSec > 0.0;
      hide Rate;
      assert 0.0 * refillPerSec == 0.0;
      if ip !in buckets {
        buckets := buckets[ip := Bucket(capacity as real, now)];
      }
      var b := buckets[ip];
      var elapsed := if now > b.lastRefill then now - b.lastRefill else 0.0;
      var tokens := b.tokens + elapsed * refillPerSec;
      if tokens > capacity as real {
        tokens := capacity as real;
      }
      assert tokens == Level(capacity, old(buckets), ip, now);
      if tokens >= 1.0 {
        tokens := tokens - 1.0;
        answer := Accepted;
      } else {
        var secs := Ceil((1.0 - tokens) / refillPerSec);
        answer := RetryAfter(if secs < 1 then 1 else secs);
      }
      buckets := buckets[ip := Bucket(tokens, now)];
    }
  }

  // ---- Runs ----

  function After(capacity: nat, m: Buckets, run: seq<Request>, k: nat): Buckets
    requires k <= |run|
  {
    if k == 0 then m else Checked(capacity, After(capacity, m, run, k - 1), run[k - 1])
  }

  function AnswerAt(capacity: nat, m: Buckets, run: seq<Request>, k: nat): Answer
    requires capacity > 0 && k < |run|
  {
    AnswerTo(capacity, After(capacity, m, run, k), run[k])
  }

  /** The lock is taken in clock order. */
  predicate InOrder(run: seq<Request>) {
    forall i, j :: 0 <= i <= j < |run| ==> run[i].at <= run[j].at
  }

  predicate Full(capacity: nat, m: Buckets) {
    forall ip :: ip in m ==> 0.0 <= m[ip].tokens <= capacity as real
  }

  /** Accepted checks of `ip` among run[i..j]. */
  function Spent(capacity: nat, m: Buckets, run: seq<Request>, i: nat, j: nat, ip: nat): nat
    requires capacity > 0 && i <= j <= |run|
    decreases j
  {
    if i == j then 0
    else Spent(capacity, m, run, i, j - 1, ip)
         + if run[j - 1].ip == ip && AnswerAt(capacity, m, run, j - 1) == Accepted then 1 else 0
  }

  lemma RateTimes(capacity: nat, a: real, b: real)
    requires a <= b
    ensures a * Rate(capacity) <= b * Rate(capacity)
    ensures capacity > 0 && a < b ==> a * Rate(capacity) < b * Rate(capacity)
  {
    assert b * Rate(capacity) - a * Rate(capacity) == (b - a) * Rate(capacity);
    assert (b - a) * Rate(capacity) >= 0.0;
    if capacity > 0 && a < b {
      assert (b - a) * Rate(capacity) > 0.0;
    }
  }

  lemma CheckKeepsFull(capacity: nat, m: Buckets, r: Request)
    requires Full(capacity, m)
    ensures Full(capacity, Checked(capacity, m, r))
    ensures 0.0 <= Level(capacity, m, r.ip, r.at) <= capacity as real
  {
    if r.ip in m && r.at > m[r.ip].lastRefill {
      RateTimes(capacity, 0.0, r.at - m[r.ip].lastRefill);
    }
  }

  /** Tokens stay within [0, capacity] on every run, in clock order or not. */
  lemma {:induction false} TokensBounded(capacity: nat, m: Buckets, run: seq<Request>, k: nat)
    requires Full(capacity, m) && k <= |run|
    ensures Full(capacity, After(capacity, m, run, k))
  {
    if k > 0 {
      TokensBounded(capacity, m, run, k - 1);
      CheckKeepsFull(capacity, After(capacity, m, run, k - 1), run[k - 1]);
    }
  }

  // ---- The rate bound ----

  function Gained(capacity: nat, from: real, to: real): real {
    (to - from) * Rate(capacity)
  }

  lemma GainedAdds(capacity: nat, a: real, b: real, c: real)
    ensures Gained(capacity, a, b) + Gained(capacity, b, c) == Gained(capacity, a, c)
    ensures Gained(capacity, a, a) == 0.0
    ensures a <= b ==> Gained(capacity, a, b) >= 0.0
  {
    assert 0.0 * Rate(capacity) == 0.0;
    if a <= b {
      RateTimes(capacity, 0.0, b - a);
    }
  }

  function MaxReal(x: real, y: real): real {
    if x < y then y else x
  }

  /** A bucket gains at most `Rate` a second, and nothing when the clock reading goes back. */
  lemma LevelGrows(capacity: nat, m: Buckets, ip: nat, s: real, t: real)
    ensures Level(capacity, m, ip, t) <= Level(capacity, m, ip, s) + Gained(capacity, s, MaxReal(s, t))
  {
    GainedAdds(capacity, s, t, t);
    GainedAdds(capacity, s, s, s);
    if ip in m {
      var l := m[ip].lastRefill;
      GainedAdds(capacity, l, s, t);
      GainedAdds(capacity, s, l, t);
      GainedAdds(capacity, l, t, s);
      GainedAdds(capacity, t, s, s);
      assert l < s ==> Level(capacity, m, ip, s) == MinReal(m[ip].tokens + Gained(capacity, l, s), capacity as real);
      assert l < t ==> Level(capacity, m, ip, t) == MinReal(m[ip].tokens + Gained(capacity, l, t), capacity as real);
      assert 0.0 * Rate(capacity) == 0.0;
    }
  }

  /** Right after a check, the bucket holds what the check left. */
  lemma LevelAfterCheck(capacity: nat, m: Buckets, r: Request, ip: nat)
    requires capacity > 0 && Full(capacity, m)
    ensures Level(capacity, Checked(capacity, m, r), ip, r.at)
            == if ip == r.ip && AnswerTo(capacity, m, r) == Accepted then Level(capacity, m, ip, r.at) - 1.0
               else Level(capacity, m, ip, r.at)
  {
    hide Rate, Full;
    CheckKeepsFull(capacity, m, r);
    assert 0.0 * Rate(capacity) == 0.0;
    if ip == r.ip {
      var level := Level(capacity, m, ip, r.at);
      var left := Checked(capacity, m, r)[ip].tokens;
      assert Level(capacity, Checked(capacity, m, r), ip, r.at) == MinReal(left, capacity as real) == left;
    } else {
      LevelElsewhere(capacity, m, r, ip, r.at);
    }
  }

  /** The time that passes between the checks run[i] .. run[j - 1], counted forwards only. */
  function Forward(run: seq<Request>, i: nat, j: nat): (f: real)
    requires i < j <= |run|
    ensures f >= 0.0
  {
    if i == j - 1 then 0.0 else Forward(run, i, j - 1) + MaxReal(run[j - 1].at - run[j - 2].at, 0.0)
  }

  lemma {:induction false} ForwardInOrder(run: seq<Request>, i: nat, j: nat)
    requires InOrder(run) && i < j <= |run|
    ensures Forward(run, i, j) == run[j - 1].at - run[i].at
  {
    if i < j - 1 {
      ForwardInOrder(run, i, j - 1);
    }
  }

  /** Accepted checks are paid for from the level at the window's start and what was gained since,
      in clock order or not. */
  lemma {:induction false} SpendingIsPaid(capacity: nat, m: Buckets, run: seq<Request>, i: nat, j: nat, ip: nat)
    requires capacity > 0 && Full(capacity, m) && i < j <= |run|
    ensures Spent(capacity, m, run, i, j, ip) as real
            + Level(capacity, After(capacity, m, run, j), ip, run[j - 1].at)
            <= Level(capacity, After(capacity, m, run, i), ip, run[i].at) + Gained(capacity, 0.0, Forward(run, i, j))
  {
    hide Rate, Level, Full, Checked, AnswerTo, Gained;
    var before := After(capacity, m, run, j - 1);
    var t := run[j - 1].at;
    TokensBounded(capacity, m, run, j - 1);
    LevelAfterCheck(capacity, before, run[j - 1], ip);
    assert After(capacity, m, run, j) == Checked(capacity, before, run[j - 1]);
    if i == j - 1 {
      assert Spent(capacity, m, run, i, i, ip) == 0;
      GainedAdds(capacity, 0.0, 0.0, 0.0);
    } else {
      SpendingIsPaid(capacity, m, run, i, j - 1, ip);
      var s := run[j - 2].at;
      LevelGrows(capacity, before, ip, s, t);
      GainedShift(capacity, Forward(run, i, j - 1), s, MaxReal(s, t));
    }
  }

  lemma GainedShift(capacity: nat, f: real, s: real, t: real)
    ensures Gained(capacity, 0.0, f) + Gained(capacity, s, t) == Gained(capacity, 0.0, f + (t - s))
  {
    hide Rate;
  }

  /** The same bound from the readings of all traffic; OthersHaveNoEffect makes it the IP's own. */
  lemma SpentInTraffic(capacity: nat, m: Buckets, run: seq<Request>, i: nat, j: nat, ip: nat)
    requires capacity > 0 && Full(capacity, m) && i < j <= |run|
    ensures Spent(capacity, m, run, i, j, ip) as real <= capacity as real + Gained(capacity, 0.0, Forward(run, i, j))
  {
    hide Level, Full, Checked, After, Spent, Forward;
    SpendingIsPaid(capacity, m, run, i, j, ip);
    TokensBounded(capacity, m, run, i);
    TokensBounded(capacity, m, run, j);
    CheckKeepsFull(capacity, After(capacity, m, run, i), Request(ip, run[i].at));
    CheckKeepsFull(capacity, After(capacity, m, run, j), Request(ip, run[j - 1].at));
    hide Gained, Rate;
  }

  /** The clock is read before the lock is taken. When a late thread carries an earlier instant,
      the bucket's refill mark moves back and the same minute is credited twice: here three checks
      pass inside sixty seconds at one a minute, where two are allowed. */
  lemma LateThreadBreaksBound()
    ensures var run := [Request(0, 0.0), Request(0, 60.0), Request(0, 0.0), Request(0, 60.0)];
      !InOrder(run) && Spent(1, map[], run, 0, 4, 0) == 3
  {
    var run := [Request(0, 0.0), Request(0, 60.0), Request(0, 0.0), Request(0, 60.0)];
    assert run[1].at > run[2].at;
    assert Rate(1) == 1.0 / 60.0 && 60.0 * Rate(1) == 1.0 && 0.0 * Rate(1) == 0.0;
    assert After(1, map[], run, 1) == map[0 := Bucket(0.0, 0.0)];
    assert After(1, map[], run, 2) == map[0 := Bucket(0.0, 60.0)];
    assert After(1, map[], run, 3) == map[0 := Bucket(0.0, 0.0)];
    assert Spent(1, map[], run, 0, 0, 0) == 0;
    assert Spent(1, map[], run, 0, 1, 0) == 1;
    assert Spent(1, map[], run, 0, 2, 0) == 2;
    assert Spent(1, map[], run, 0, 3, 0) == 2;
  }

  // ---- Buckets are independent ----

  function Only(run: seq<Request>, ip: nat): seq<Request> {
    if run == [] then []
    else Only(run[..|run| - 1], ip) + if run[|run| - 1].ip == ip then [run[|run| - 1]] else []
  }

  predicate SameBucket(a: Buckets, b: Buckets, ip: nat) {
    (ip in a <==> ip in b) && (ip in a ==> a[ip] == b[ip])
  }

  lemma {:induction false} AfterPrefix(capacity: nat, m: Buckets, a: seq<Request>, b: seq<Request>, k: nat)
    requires k <= |a|
    ensures After(capacity, m, a + b, k) == After(capacity, m, a, k)
  {
    if k > 0 {
      AfterPrefix(capacity, m, a, b, k - 1);
    }
  }

  lemma SameBucketStep(capacity: nat, a: Buckets, b: Buckets, r: Request, ip: nat)
    requires SameBucket(a, b, ip)
    ensures SameBucket(Checked(capacity, a, r), if r.ip == ip then Checked(capacity, b, r) else b, ip)
  {
    if r.ip == ip {
      SameLevel(capacity, a, b, ip, r.at);
      hide Level;
    } else {
      hide Level;
    }
  }

  lemma SameLevel(capacity: nat, a: Buckets, b: Buckets, ip: nat, at: real)
    requires SameBucket(a, b, ip)
    ensures Level(capacity, a, ip, at) == Level(capacity, b, ip, at)
  {
    hide Rate, MinReal;
  }

  /** Traffic from other addresses has no effect: an IP's bucket after a run is its bucket after
      its own requests alone. */
  lemma {:induction false} OthersHaveNoEffect(capacity: nat, m: Buckets, run: seq<Request>, ip: nat)
    ensures SameBucket(After(capacity, m, run, |run|),
                       After(capacity, m, Only(run, ip), |Only(run, ip)|), ip)
  {
    hide Checked, SameBucket;
    if run == [] {
      SameBucketRefl(m, ip);
    } else {
      var n := |run| - 1;
      var first, own := run[..n], Only(run[..n], ip);
      OthersHaveNoEffect(capacity, m, first, ip);
      AfterSnoc(capacity, m, first, run[n]);
      assert first + [run[n]] == run;
      AfterSnoc(capacity, m, own, run[n]);
      assert Only(run, ip) == if run[n].ip == ip then own + [run[n]] else own;
      hide After, Only;
      SameBucketStep(capacity, After(capacity, m, first, n), After(capacity, m, own, |own|), run[n], ip);
    }
  }

  /** The time that passes between the IP's own checks among run[i..j], counted forwards only. */
  function OwnForward(run: seq<Request>, i: nat, j: nat, ip: nat): (f: real)
    requires i <= j <= |run|
    ensures f >= 0.0
  {
    Elapsed(Only(run[i..j], ip))
  }

  function Elapsed(own: seq<Request>): (f: real)
    ensures f >= 0.0
  {
    if own == [] then 0.0 else Forward(own, 0, |own|)
  }

  /** The IP alone in the traffic. */
  lemma SpentInAll(capacity: nat, m: Buckets, own: seq<Request>, ip: nat)
    requires capacity > 0 && Full(capacity, m)
    ensures Spent(capacity, m, own, 0, |own|, ip) as real <= capacity as real + Gained(capacity, 0.0, Elapsed(own))
  {
    GainedAdds(capacity, 0.0, 0.0, 0.0);
    hide Full, Forward, Gained;
    if own != [] {
      hide Spent;
      SpentInTraffic(capacity, m, own, 0, |own|, ip);
    }
  }

  lemma Spelled(capacity: nat, f: real)
    ensures Gained(capacity, 0.0, f) == f * capacity as real / 60.0
  {}

  lemma {:induction false} AfterSplit(capacity: nat, m: Buckets, run: seq<Request>, i: nat, j: nat)
    requires i <= j <= |run|
    ensures After(capacity, m, run, j) == After(capacity, After(capacity, m, run, i), run[i..j], j - i)
  {
    hide Checked;
    if i < j {
      AfterSplit(capacity, m, run, i, j - 1);
      assert run[i..j] == run[i..j - 1] + [run[j - 1]];
      AfterSnoc(capacity, After(capacity, m, run, i), run[i..j - 1], run[j - 1]);
    }
  }

  lemma OnlySnoc(run: seq<Request>, i: nat, j: nat, ip: nat)
    requires i < j <= |run|
    ensures Only(run[i..j], ip)
            == if run[j - 1].ip == ip then Only(run[i..j - 1], ip) + [run[j - 1]] else Only(run[i..j - 1], ip)
  {
    assert run[i..j][..j - i - 1] == run[i..j - 1];
  }

  /** Of its own checks alone the IP gets as many accepted. */
  lemma {:induction false} SpentAlone(capacity: nat, m: Buckets, run: seq<Request>, i: nat, j: nat, ip: nat)
    requires capacity > 0 && i <= j <= |run|
    ensures var own := Only(run[i..j], ip);
      Spent(capacity, m, run, i, j, ip) == Spent(capacity, After(capacity, m, run, i), own, 0, |own|, ip)
  {
    hide After, Only, Checked, AnswerTo, Spent;
    if i < j {
      SpentAlone(capacity, m, run, i, j - 1, ip);
      OnlySnoc(run, i, j, ip);
      SpentLast(capacity, m, run, i, j, ip);
      if run[j - 1].ip == ip {
        var m0, own, r := After(capacity, m, run, i), Only(run[i..j - 1], ip), run[j - 1];
        AfterSplit(capacity, m, run, i, j - 1);
        OthersHaveNoEffect(capacity, m0, run[i..j - 1], ip);
        SameAnswer(capacity, After(capacity, m, run, j - 1), After(capacity, m0, own, |own|), r);
        SpentSnoc(capacity, m0, own, r);
      }
    } else {
      SpentNothing(capacity, m, run, i, ip);
    }
  }

  lemma SpentLast(capacity: nat, m: Buckets, run: seq<Request>, i: nat, j: nat, ip: nat)
    requires capacity > 0 && i < j <= |run|
    ensures Spent(capacity, m, run, i, j, ip)
            == Spent(capacity, m, run, i, j - 1, ip)
               + if run[j - 1].ip == ip && AnswerTo(capacity, After(capacity, m, run, j - 1), run[j - 1]) == Accepted
                 then 1 else 0
  {
    hide After, AnswerTo;
  }

  lemma SpentNothing(capacity: nat, m: Buckets, run: seq<Request>, i: nat, ip: nat)
    requires capacity > 0 && i <= |run|
    ensures Spent(capacity, m, run, i, i, ip) == 0 && Only(run[i..i], ip) == []
    ensures Spent(capacity, After(capacity, m, run, i), [], 0, 0, ip) == 0
  {}

  lemma SameAnswer(capacity: nat, a: Buckets, b: Buckets, r: Request)
    requires capacity > 0 && SameBucket(a, b, r.ip)
    ensures AnswerTo(capacity, a, r) == AnswerTo(capacity, b, r)
  {
    SameLevel(capacity, a, b, r.ip, r.at);
    hide Level;
  }

  lemma SpentSnoc(capacity: nat, m: Buckets, own: seq<Request>, r: Request)
    requires capacity > 0
    ensures Spent(capacity, m, own + [r], 0, |own| + 1, r.ip)
            == Spent(capacity, m, own, 0, |own|, r.ip)
               + if AnswerTo(capacity, After(capacity, m, own, |own|), r) == Accepted then 1 else 0
  {
    hide Checked, AnswerTo;
    SpentPrefix(capacity, m, own, [r], |own|, r.ip);
    AfterPrefix(capacity, m, own, [r], |own|);
  }

  lemma {:induction false} SpentPrefix(capacity: nat, m: Buckets, a: seq<Request>, b: seq<Request>, k: nat, ip: nat)
    requires capacity > 0 && k <= |a|
    ensures Spent(capacity, m, a + b, 0, k, ip) == Spent(capacity, m, a, 0, k, ip)
  {
    hide Checked, AnswerTo;
    if k > 0 {
      SpentPrefix(capacity, m, a, b, k - 1, ip);
      AfterPrefix(capacity, m, a, b, k - 1);
    }
  }

  /** In clock order that is the time from the first of them to the last. */
  lemma OwnForwardInOrder(run: seq<Request>, i: nat, j: nat, ip: nat)
    requires i <= j <= |run| && InOrder(Only(run[i..j], ip))
    ensures var own := Only(run[i..j], ip);
      OwnForward(run, i, j, ip) == if own == [] then 0.0 else own[|own| - 1].at - own[0].at
  {
    var own := Only(run[i..j], ip);
    if own != [] {
      ForwardInOrder(own, 0, |own|);
    }
  }

  /** Whatever the traffic and the order in which threads reach the lock, one IP gets at most
      capacity + f * capacity / 60 accepted checks, where f counts the forward moves of the clock
      readings of its own checks. Late threads of other addresses do not matter. */
  lemma SpentAtMost(capacity: nat, m: Buckets, run: seq<Request>, i: nat, j: nat, ip: nat)
    requires capacity > 0 && Full(capacity, m) && i <= j <= |run|
    ensures Spent(capacity, m, run, i, j, ip) as real
            <= capacity as real + OwnForward(run, i, j, ip) * capacity as real / 60.0
  {
    hide Full, After, Only, Elapsed, Spent;
    SpentAlone(capacity, m, run, i, j, ip);
    TokensBounded(capacity, m, run, i);
    SpentInAll(capacity, After(capacity, m, run, i), Only(run[i..j], ip), ip);
    Spelled(capacity, OwnForward(run, i, j, ip));
    hide Gained, Rate;
  }

  /** The promised bound: in a window of `window` seconds one IP gets at most
      capacity + window * capacity / 60 accepted checks, provided the clock readings of its own checks
      move forward by no more than the window, as in clock order they do (OwnForwardInOrder). */
  lemma RateBound(capacity: nat, m: Buckets, run: seq<Request>, i: nat, j: nat, ip: nat, window: real)
    requires capacity > 0 && Full(capacity, m) && i <= j <= |run|
    requires OwnForward(run, i, j, ip) <= window
    ensures Spent(capacity, m, run, i, j, ip) as real <= capacity as real + window * capacity as real / 60.0
  {
    hide Full, Spent, OwnForward;
    SpentAtMost(capacity, m, run, i, j, ip);
    Spelled(capacity, OwnForward(run, i, j, ip));
    Spelled(capacity, window);
    RateTimes(capacity, OwnForward(run, i, j, ip), window);
    assert Gained(capacity, 0.0, OwnForward(run, i, j, ip)) <= Gained(capacity, 0.0, window);
    hide Gained, Rate;
  }

  lemma AfterSnoc(capacity: nat, m: Buckets, a: seq<Request>, r: Request)
    ensures After(capacity, m, a + [r], |a| + 1) == Checked(capacity, After(capacity, m, a, |a|), r)
  {
    hide Checked;
    AfterPrefix(capacity, m, a, [r], |a|);
    assert (a + [r])[|a|] == r;
  }

  lemma SameBucketRefl(m: Buckets, ip: nat)
    ensures SameBucket(m, m, ip)
  {}

  // ---- What an IP is owed ----

  /** Its own checks among the first `k`. */
  function OwnBefore(run: seq<Request>, k: nat, ip: nat): seq<Request>
    requires k <= |run|
  {
    Only(run[..k], ip)
  }

  lemma OwnStep(run: seq<Request>, k: nat, ip: nat)
    requires k < |run|
    ensures OwnBefore(run, k + 1, ip)
            == if run[k].ip == ip then OwnBefore(run, k, ip) + [run[k]] else OwnBefore(run, k, ip)
  {
    assert run[0..k + 1] == run[..k + 1] && run[0..k] == run[..k];
    OnlySnoc(run, 0, k + 1, ip);
  }

  /** At least what is left of a full bucket after `c` checks. */
  predicate Owes(capacity: nat, m: Buckets, ip: nat, c: nat) {
    ip in m ==> m[ip].tokens >= (capacity - c) as real
  }

  lemma OwesStep(capacity: nat, m: Buckets, r: Request, ip: nat, c: nat)
    requires capacity > 0 && Full(capacity, m) && Owes(capacity, m, ip, c)
    ensures r.ip == ip ==> Owes(capacity, Checked(capacity, m, r), ip, c + 1)
    ensures r.ip != ip ==> Owes(capacity, Checked(capacity, m, r), ip, c)
    ensures r.ip == ip && c < capacity ==> AnswerTo(capacity, m, r) == Accepted
  {
    assert 0.0 * Rate(capacity) == 0.0;
    if r.ip in m && r.at > m[r.ip].lastRefill {
      RateTimes(capacity, 0.0, r.at - m[r.ip].lastRefill);
    }
  }

  lemma {:induction false} OwesRun(capacity: nat, run: seq<Request>, k: nat, ip: nat)
    requires capacity > 0 && k <= |run|
    ensures Full(capacity, After(capacity, map[], run, k))
    ensures Owes(capacity, After(capacity, map[], run, k), ip, |OwnBefore(run, k, ip)|)
  {
    hide Checked, Full, Owes, Only;
    NobodyFull(capacity);
    TokensBounded(capacity, map[], run, k);
    if k == 0 {
      NothingOwed(capacity, ip, |OwnBefore(run, 0, ip)|);
    } else {
      OwesRun(capacity, run, k - 1, ip);
      OwnStep(run, k - 1, ip);
      OwesStep(capacity, After(capacity, map[], run, k - 1), run[k - 1], ip, |OwnBefore(run, k - 1, ip)|);
    }
  }

  lemma NobodyFull(capacity: nat)
    ensures Full(capacity, map[])
  {}

  lemma NothingOwed(capacity: nat, ip: nat, c: nat)
    ensures Owes(capacity, map[], ip, c)
  {}

  /** Of an IP nobody has heard of the first `capacity` checks are all accepted, whatever the readings,
      their order and the other traffic. */
  lemma FirstChecksAccepted(capacity: nat, run: seq<Request>, k: nat)
    requires capacity > 0 && k < |run| && |OwnBefore(run, k, run[k].ip)| < capacity
    ensures AnswerAt(capacity, map[], run, k) == Accepted
  {
    hide Full, Owes, Checked, AnswerTo, After;
    OwesRun(capacity, run, k, run[k].ip);
    OwesStep(capacity, After(capacity, map[], run, k), run[k], run[k].ip, |OwnBefore(run, k, run[k].ip)|);
  }

  /** The bucket of an IP that has made `c` checks, all at the reading `at`. */
  predicate SpentAtOnce(capacity: nat, m: Buckets, ip: nat, at: real, c: nat) {
    if c == 0 then ip !in m
    else ip in m && m[ip] == Bucket(if c <= capacity then (capacity - c) as real else 0.0, at)
  }

  lemma AtOnceStep(capacity: nat, m: Buckets, r: Request, ip: nat, at: real, c: nat)
    requires capacity > 0 && SpentAtOnce(capacity, m, ip, at, c) && (r.ip == ip ==> r.at == at)
    ensures SpentAtOnce(capacity, Checked(capacity, m, r), ip, at, if r.ip == ip then c + 1 else c)
    ensures r.ip == ip ==> (AnswerTo(capacity, m, r) == Accepted <==> c < capacity)
  {
    assert 0.0 * Rate(capacity) == 0.0;
  }

  lemma {:induction false} AtOnceRun(capacity: nat, run: seq<Request>, k: nat, ip: nat, at: real)
    requires capacity > 0 && k <= |run| && forall i :: 0 <= i < |run| && run[i].ip == ip ==> run[i].at == at
    ensures SpentAtOnce(capacity, After(capacity, map[], run, k), ip, at, |OwnBefore(run, k, ip)|)
  {
    hide Checked, SpentAtOnce, Only;
    if k == 0 {
      NothingSpent(capacity, run, ip, at);
    } else {
      AtOnceRun(capacity, run, k - 1, ip, at);
      OwnStep(run, k - 1, ip);
      AtOnceStep(capacity, After(capacity, map[], run, k - 1), run[k - 1], ip, at, |OwnBefore(run, k - 1, ip)|);
    }
  }

  lemma NothingSpent(capacity: nat, run: seq<Request>, ip: nat, at: real)
    ensures SpentAtOnce(capacity, map[], ip, at, |OwnBefore(run, 0, ip)|)
  {
    assert run[..0] == [];
  }

  /** At one reading exactly the first `capacity` are. */
  lemma AtOnceExact(capacity: nat, run: seq<Request>, k: nat)
    requires capacity > 0 && k < |run| && forall i :: 0 <= i < |run| && run[i].ip == run[k].ip ==>
        run[i].at == run[k].at
    ensures AnswerAt(capacity, map[], run, k) == Accepted <==> |OwnBefore(run, k, run[k].ip)| < capacity
  {
    hide SpentAtOnce, Checked, AnswerTo, After, Only;
    AtOnceRun(capacity, run, k, run[k].ip, run[k].at);
    AtOnceStep(capacity, After(capacity, map[], run, k), run[k], run[k].ip, run[k].at, |OwnBefore(run, k, run[k].ip)|);
  }

  /** The tokens that so many seconds bring. */
  function Credit(capacity: nat, seconds: real): real {
    seconds * capacity as real / 60.0
  }

  /** What the refill of one check puts on the IP's bucket beyond `capacity`. */
  function Overflow(capacity: nat, m: Buckets, r: Request, ip: nat): real {
    if r.ip == ip && ip in m then
      MaxReal(m[ip].tokens + Credit(capacity, MaxReal(r.at - m[ip].lastRefill, 0.0)) - capacity as real, 0.0)
    else 0.0
  }

  /** What flowed over the rim in the first `k` checks. */
  function Spilled(capacity: nat, run: seq<Request>, k: nat, ip: nat): real
    requires k <= |run|
  {
    if k == 0 then 0.0
    else Spilled(capacity, run, k - 1, ip) + Overflow(capacity, After(capacity, map[], run, k - 1), run[k - 1], ip)
  }

  /** The IP's books balance: it started with `capacity` tokens, gained capacity / 60 a second for every
      forward move of its own readings, and has that on its bucket, spent, or lost over the rim. */
  predicate Balanced(capacity: nat, m: Buckets, ip: nat, own: seq<Request>, spent: nat, spilled: real) {
    if own == [] then ip !in m && spent == 0 && spilled == 0.0
    else
      && ip in m && m[ip].lastRefill == own[|own| - 1].at
      && spent as real + spilled + m[ip].tokens == capacity as real + Credit(capacity, Elapsed(own))
  }

  lemma BalancedStep(capacity: nat, m: Buckets, r: Request, ip: nat, own: seq<Request>, spent: nat, spilled: real)
    requires capacity > 0 && Balanced(capacity, m, ip, own, spent, spilled)
    ensures var own' := if r.ip == ip then own + [r] else own;
      var spent' := spent + if r.ip == ip && AnswerTo(capacity, m, r) == Accepted then 1 else 0;
      Balanced(capacity, Checked(capacity, m, r), ip, own', spent', spilled + Overflow(capacity, m, r, ip))
  {
    AccountStep(capacity, m, r, ip);
    hide Checked, AnswerTo, Rate, Elapsed, MaxReal, Credit, Overflow;
    ElapsedSnoc(own, r);
    if r.ip == ip && own != [] {
      CreditAdds(capacity, Elapsed(own), MaxReal(r.at - own[|own| - 1].at, 0.0));
    } else if r.ip == ip {
      NoCredit(capacity);
    }
  }

  lemma CreditAdds(capacity: nat, a: real, b: real)
    ensures Credit(capacity, a + b) == Credit(capacity, a) + Credit(capacity, b)
  {}

  lemma NoCredit(capacity: nat)
    ensures Credit(capacity, 0.0) == 0.0
  {}

  /** So over any run from its first check on, in clock order or not: not a token is lost or made. */
  lemma {:induction false} TokensAccounted(capacity: nat, run: seq<Request>, k: nat, ip: nat)
    requires capacity > 0 && k <= |run|
    ensures Balanced(capacity, After(capacity, map[], run, k), ip, OwnBefore(run, k, ip),
                     Spent(capacity, map[], run, 0, k, ip), Spilled(capacity, run, k, ip))
  {
    hide Checked, AnswerTo, Balanced, Overflow, MaxReal, Only, Spent, OwnBefore, After, Spilled;
    BooksUnfold(capacity, run, k, ip);
    if k == 0 {
      NothingBalanced(capacity, run, ip);
    } else {
      SpentLast(capacity, map[], run, 0, k, ip);
      TokensAccounted(capacity, run, k - 1, ip);
      OwnStep(run, k - 1, ip);
      BalancedStep(capacity, After(capacity, map[], run, k - 1), run[k - 1], ip, OwnBefore(run, k - 1, ip),
                   Spent(capacity, map[], run, 0, k - 1, ip), Spilled(capacity, run, k - 1, ip));
    }
  }

  lemma BooksUnfold(capacity: nat, run: seq<Request>, k: nat, ip: nat)
    requires k <= |run|
    ensures k == 0 ==> After(capacity, map[], run, k) == map[] && Spilled(capacity, run, k, ip) == 0.0
    ensures k > 0 ==>
      var m := After(capacity, map[], run, k - 1);
      && After(capacity, map[], run, k) == Checked(capacity, m, run[k - 1])
      && Spilled(capacity, run, k, ip) == Spilled(capacity, run, k - 1, ip) + Overflow(capacity, m, run[k - 1], ip)
  {
    hide Checked, Overflow;
  }

  lemma NothingBalanced(capacity: nat, run: seq<Request>, ip: nat)
    requires capacity > 0
    ensures Balanced(capacity, After(capacity, map[], run, 0), ip, OwnBefore(run, 0, ip),
                     Spent(capacity, map[], run, 0, 0, ip), Spilled(capacity, run, 0, ip))
  {
    assert run[..0] == [];
  }

  lemma ElapsedSnoc(own: seq<Request>, r: Request)
    ensures Elapsed(own + [r]) == if own == [] then 0.0 else Elapsed(own) + MaxReal(r.at - own[|own| - 1].at, 0.0)
  {
    if own != [] {
      ForwardPrefix(own, [r], |own|);
    }
  }

  lemma {:induction false} ForwardPrefix(a: seq<Request>, b: seq<Request>, k: nat)
    requires 0 < k <= |a|
    ensures Forward(a + b, 0, k) == Forward(a, 0, k)
  {
    if k > 1 {
      ForwardPrefix(a, b, k - 1);
    }
  }

  /** One check, in the terms of the books. */
  lemma AccountStep(capacity: nat, m: Buckets, r: Request, ip: nat)
    requires capacity > 0
    ensures var m1 := Checked(capacity, m, r);
      if r.ip != ip then (ip in m1 <==> ip in m) && (ip in m ==> m1[ip] == m[ip]) && Overflow(capacity, m, r, ip) == 0.0
      else
        var paid := if AnswerTo(capacity, m, r) == Accepted then 1.0 else 0.0;
        && ip in m1 && m1[ip].lastRefill == r.at
        && (ip !in m ==> m1[ip].tokens == capacity as real - paid && Overflow(capacity, m, r, ip) == 0.0)
        && (ip in m ==>
              m1[ip].tokens + paid + Overflow(capacity, m, r, ip)
              == m[ip].tokens + Credit(capacity, MaxReal(r.at - m[ip].lastRefill, 0.0)))
  {
    if r.ip == ip && ip in m {
      var f := MaxReal(r.at - m[ip].lastRefill, 0.0);
      assert f * Rate(capacity) == f * capacity as real / 60.0;
    }
  }

  // ---- Refused checks leave no trace ----

  /** No later check can tell the two apart. */
  predicate Alike(capacity: nat, a: Buckets, b: Buckets, from: real, ip: nat, at: real) {
    at >= from ==> Level(capacity, a, ip, at) == Level(capacity, b, ip, at)
  }

  ghost predicate Indistinguishable(capacity: nat, a: Buckets, b: Buckets, from: real) {
    forall ip, at :: Alike(capacity, a, b, from, ip, at)
  }

  /** Capped refills compose. */
  lemma RefillsCompose(capacity: nat, m: Buckets, r: Request, at: real)
    requires capacity > 0 && Full(capacity, m) && AnswerTo(capacity, m, r).RetryAfter?
    requires r.ip in m ==> m[r.ip].lastRefill <= r.at
    requires r.at <= at
    ensures Level(capacity, Checked(capacity, m, r), r.ip, at) == Level(capacity, m, r.ip, at)
  {
    var l := m[r.ip].lastRefill;
    assert (at - l) * Rate(capacity) == (r.at - l) * Rate(capacity) + (at - r.at) * Rate(capacity);
    assert 0.0 * Rate(capacity) == 0.0;
    RateTimes(capacity, 0.0, at - r.at);
  }

  /** A refused check that reads its clock before the refill mark moves the mark back, and the time
      in between is credited twice. */
  lemma LateRefusalPays(capacity: nat, m: Buckets, r: Request, at: real)
    requires capacity > 0 && Full(capacity, m) && AnswerTo(capacity, m, r).RetryAfter?
    requires r.ip in m && r.at < m[r.ip].lastRefill <= at
    ensures var gain := Gained(capacity, r.at, m[r.ip].lastRefill);
      && gain > 0.0
      && Level(capacity, Checked(capacity, m, r), r.ip, at)
         == MinReal(m[r.ip].tokens + Gained(capacity, m[r.ip].lastRefill, at) + gain, capacity as real)
      && Level(capacity, m, r.ip, at) == MinReal(m[r.ip].tokens + Gained(capacity, m[r.ip].lastRefill, at),
          capacity as real)
  {
    var l := m[r.ip].lastRefill;
    RefusedTokens(capacity, m, r);
    CheckKeepsFull(capacity, m, r);
    LateBucket(capacity, m, r);
    LevelIs(capacity, m, r.ip, at);
    LevelIs(capacity, Checked(capacity, m, r), r.ip, at);
    GainedAdds(capacity, r.at, l, at);
    GainedPositive(capacity, r.at, l);
    hide Level, Checked, Full, Gained, Rate;
  }

  lemma GainedPositive(capacity: nat, s: real, t: real)
    requires capacity > 0 && s < t
    ensures Gained(capacity, s, t) > 0.0
  {
    assert Rate(capacity) > 0.0;
    hide Rate;
    Positive(t - s, Rate(capacity));
  }

  lemma Positive(a: real, b: real)
    requires a > 0.0 && b > 0.0
    ensures a * b > 0.0
  {}

  /** A refused check cannot be told from none, by readings from its own on, exactly when its clock reading
      is no older than the refill mark. */
  lemma RefusalTracelessIff(capacity: nat, m: Buckets, r: Request)
    requires capacity > 0 && Full(capacity, m) && AnswerTo(capacity, m, r).RetryAfter?
    ensures Indistinguishable(capacity, Checked(capacity, m, r), m, r.at)
            <==> (r.ip in m ==> m[r.ip].lastRefill <= r.at)
  {
    var m1 := Checked(capacity, m, r);
    if r.ip in m && r.at < m[r.ip].lastRefill {
      var at := m[r.ip].lastRefill;
      LateRefusalPays(capacity, m, r, at);
      RefusedTokens(capacity, m, r);
      GainedAdds(capacity, at, at, at);
      assert !Alike(capacity, m1, m, r.at, r.ip, at);
    } else {
      forall ip, at
        ensures Alike(capacity, m1, m, r.at, ip, at)
      {
        if ip == r.ip && at >= r.at {
          RefillsCompose(capacity, m, r, at);
        }
      }
    }
  }

  lemma RefusedTokens(capacity: nat, m: Buckets, r: Request)
    requires capacity > 0 && Full(capacity, m) && AnswerTo(capacity, m, r).RetryAfter?
    ensures r.ip in m && 0.0 <= m[r.ip].tokens < 1.0
  {
    assert 0.0 * Rate(capacity) == 0.0;
    if r.ip in m && r.at > m[r.ip].lastRefill {
      RateTimes(capacity, 0.0, r.at - m[r.ip].lastRefill);
    }
  }

  /** In numbers: at one a minute, a refused check whose thread was a minute late turns the next
      refusal into an acceptance. */
  lemma LateRefusalCounts()
    ensures var m, late, now := map[0 := Bucket(0.0, 60.0)], Request(0, 0.0), Request(0, 60.0);
      && AnswerTo(1, m, late).RetryAfter? && AnswerTo(1, m, now).RetryAfter?
      && AnswerTo(1, Checked(1, m, late), now) == Accepted
  {
    assert Rate(1) == 1.0 / 60.0 && 60.0 * Rate(1) == 1.0 && 0.0 * Rate(1) == 0.0;
  }

  lemma AlikeStep(capacity: nat, a: Buckets, b: Buckets, from: real, r: Request)
    requires capacity > 0 && Indistinguishable(capacity, a, b, from) && from <= r.at
    ensures AnswerTo(capacity, a, r) == AnswerTo(capacity, b, r)
    ensures Indistinguishable(capacity, Checked(capacity, a, r), Checked(capacity, b, r), from)
  {
    hide Level;
    assert Alike(capacity, a, b, from, r.ip, r.at);
    var a1, b1 := Checked(capacity, a, r), Checked(capacity, b, r);
    forall ip, at
      ensures Alike(capacity, a1, b1, from, ip, at)
    {
      if ip == r.ip {
        LevelOfEqualBuckets(capacity, a1, b1, ip, at);
      } else {
        LevelElsewhere(capacity, a, r, ip, at);
        LevelElsewhere(capacity, b, r, ip, at);
        assert Alike(capacity, a, b, from, ip, at);
      }
    }
  }

  lemma LevelOfEqualBuckets(capacity: nat, a: Buckets, b: Buckets, ip: nat, at: real)
    requires ip in a && ip in b && a[ip] == b[ip]
    ensures Level(capacity, a, ip, at) == Level(capacity, b, ip, at)
  {}

  lemma LevelElsewhere(capacity: nat, m: Buckets, r: Request, ip: nat, at: real)
    requires ip != r.ip
    ensures Level(capacity, Checked(capacity, m, r), ip, at) == Level(capacity, m, ip, at)
  {
    hide Rate;
  }

  lemma {:induction false} AlikeRuns(capacity: nat, a: Buckets, b: Buckets, from: real, run: seq<Request>, k: nat)
    requires capacity > 0 && Indistinguishable(capacity, a, b, from) && k <= |run|
    requires forall i :: 0 <= i < |run| ==> from <= run[i].at
    ensures Indistinguishable(capacity, After(capacity, a, run, k), After(capacity, b, run, k), from)
    ensures k < |run| ==> AnswerAt(capacity, a, run, k) == AnswerAt(capacity, b, run, k)
  {
    if k > 0 {
      AlikeRuns(capacity, a, b, from, run, k - 1);
      AlikeStep(capacity, After(capacity, a, run, k - 1), After(capacity, b, run, k - 1), from, run[k - 1]);
    }
    if k < |run| {
      AlikeStep(capacity, After(capacity, a, run, k), After(capacity, b, run, k), from, run[k]);
    }
  }

  /** Striking the refused check from the run leaves answer number `k` as it was. */
  predicate AnswerKept(capacity: nat, m: Buckets, r: Request, rest: seq<Request>, k: nat)
    requires capacity > 0
  {
    k < |rest| ==> AnswerAt(capacity, Checked(capacity, m, r), rest, k) == AnswerAt(capacity, m, rest, k)
  }

  /** No thread comes after `r` with an earlier reading. */
  predicate NoneEarlier(r: Request, rest: seq<Request>) {
    forall i :: 0 <= i < |rest| ==> r.at <= rest[i].at
  }

  /** While nobody who comes later has an earlier reading, a refused check changes no answer, to any
      IP, exactly when its own reading is no older than the refill mark. */
  lemma RefusedChecksDoNotCount(capacity: nat, m: Buckets, r: Request)
    requires capacity > 0 && Full(capacity, m) && AnswerTo(capacity, m, r).RetryAfter?
    ensures (forall rest: seq<Request>, k: nat :: NoneEarlier(r, rest) ==> AnswerKept(capacity, m, r, rest, k))
            <==> (r.ip in m ==> m[r.ip].lastRefill <= r.at)
  {
    RefusalTracelessIff(capacity, m, r);
    if r.ip in m && r.at < m[r.ip].lastRefill {
      LateRefusalShows(capacity, m, r);
    } else {
      hide Indistinguishable, AnswerAt, Full, AnswerTo;
      forall rest: seq<Request>, k: nat | NoneEarlier(r, rest)
        ensures AnswerKept(capacity, m, r, rest, k)
      {
        if k < |rest| {
          AlikeRuns(capacity, Checked(capacity, m, r), m, r.at, rest, k);
        }
      }
    }
  }

  /** Of arbitrary traffic, late threads included, that is so exactly when its reading is the refill
      mark: any other moves the mark, and some later thread is answered otherwise. */
  lemma RefusedChecksNeverCount(capacity: nat, m: Buckets, r: Request)
    requires capacity > 0 && Full(capacity, m) && AnswerTo(capacity, m, r).RetryAfter?
    ensures (forall rest: seq<Request>, k: nat :: AnswerKept(capacity, m, r, rest, k))
            <==> (r.ip in m ==> m[r.ip].lastRefill == r.at)
  {
    RefusedTokens(capacity, m, r);
    hide Full, AnswerTo, Checked, Level;
    if r.at < m[r.ip].lastRefill {
      LateRefusalShows(capacity, m, r);
    } else if m[r.ip].lastRefill < r.at {
      EarlyReadingShows(capacity, m, r);
    } else {
      UnmovedMark(capacity, m, r);
    }
  }

  lemma UnmovedMark(capacity: nat, m: Buckets, r: Request)
    requires capacity > 0 && Full(capacity, m) && AnswerTo(capacity, m, r).RetryAfter?
    requires r.ip in m && m[r.ip].lastRefill == r.at
    ensures Checked(capacity, m, r) == m
  {
    assert 0.0 * Rate(capacity) == 0.0;
    assert Checked(capacity, m, r)[r.ip] == m[r.ip];
  }

  /** The refused check has credited the time since the mark. A thread that reads the old mark moves the
      new one back, with the credit kept, and a token is complete sooner than it would have been. */
  lemma EarlyReadingShows(capacity: nat, m: Buckets, r: Request)
    requires capacity > 0 && Full(capacity, m) && AnswerTo(capacity, m, r).RetryAfter?
    requires r.ip in m && m[r.ip].lastRefill < r.at
    ensures exists rest: seq<Request>, k: nat :: !AnswerKept(capacity, m, r, rest, k)
  {
    var b, m1, ip := m[r.ip], Checked(capacity, m, r), r.ip;
    var level := Level(capacity, m, ip, r.at);
    var back := Request(ip, b.lastRefill);
    var need := (1.0 - level) / Rate(capacity);
    var probe := Request(ip, b.lastRefill + need);
    EarlyLevel(capacity, m, r);
    WaitPositive(capacity, level);
    WaitPositive(capacity, b.tokens);
    GainReaches(capacity, level, b.lastRefill, b.lastRefill + need, need);
    NeedLess(capacity, level, b.tokens);
    GainReaches(capacity, b.tokens, b.lastRefill, b.lastRefill + need, (1.0 - b.tokens) / Rate(capacity));
    BackThere(capacity, m1, back, level);
    BackThere(capacity, m, back, b.tokens);
    ProbeAt(capacity, Checked(capacity, m1, back), probe, level);
    ProbeAt(capacity, Checked(capacity, m, back), probe, b.tokens);
    hide Level, Full, Rate, Gained, AnswerTo, Checked;
    var rest := [back, probe];
    TwoChecks(capacity, m, back, probe);
    TwoChecks(capacity, m1, back, probe);
    assert !AnswerKept(capacity, m, r, rest, 1);
  }

  lemma TwoChecks(capacity: nat, m: Buckets, a: Request, b: Request)
    requires capacity > 0
    ensures AnswerAt(capacity, m, [a, b], 1) == AnswerTo(capacity, Checked(capacity, m, a), b)
  {
    hide Checked, AnswerTo;
    assert After(capacity, m, [a, b], 1) == Checked(capacity, m, a);
  }

  lemma NeedLess(capacity: nat, high: real, low: real)
    requires capacity > 0 && low < high
    ensures (1.0 - high) / Rate(capacity) < (1.0 - low) / Rate(capacity)
  {
    var need := (1.0 - high) / Rate(capacity);
    WaitReaches(capacity, high, need);
    WaitReaches(capacity, low, need);
    assert need * Rate(capacity) == 1.0 - high;
  }

  /** What the refused check leaves: more than there was at the mark, less than a token, and a later mark. */
  lemma EarlyLevel(capacity: nat, m: Buckets, r: Request)
    requires capacity > 0 && Full(capacity, m) && AnswerTo(capacity, m, r).RetryAfter?
    requires r.ip in m && m[r.ip].lastRefill < r.at
    ensures var level := Level(capacity, m, r.ip, r.at);
      && 0.0 <= m[r.ip].tokens < level < 1.0
      && Checked(capacity, m, r)[r.ip] == Bucket(level, r.at)
  {
    RefusedTokens(capacity, m, r);
    LevelIs(capacity, m, r.ip, r.at);
    GainedPositive(capacity, m[r.ip].lastRefill, r.at);
  }

  /** A check that reads no later than the mark finds the tokens as they are, and moves the mark to
      its reading. */
  lemma BackThere(capacity: nat, m: Buckets, back: Request, level: real)
    requires capacity > 0 && back.ip in m && m[back.ip].tokens == level && 0.0 <= level < 1.0
    requires back.at <= m[back.ip].lastRefill
    ensures Checked(capacity, m, back)[back.ip] == Bucket(level, back.at)
  {
    assert 0.0 * Rate(capacity) == 0.0;
  }

  lemma ProbeAt(capacity: nat, m: Buckets, probe: Request, level: real)
    requires capacity > 0 && probe.ip in m && m[probe.ip].tokens == level && m[probe.ip].lastRefill < probe.at
    ensures (AnswerTo(capacity, m, probe) == Accepted)
            <==> level + Gained(capacity, m[probe.ip].lastRefill, probe.at) >= 1.0
  {
    LevelAhead(capacity, m, probe.ip, probe.at);
    hide Level, Gained, WaitFor;
  }

  lemma LevelAhead(capacity: nat, m: Buckets, ip: nat, at: real)
    requires ip in m && m[ip].lastRefill < at
    ensures Level(capacity, m, ip, at) == MinReal(m[ip].tokens + Gained(capacity, m[ip].lastRefill, at),
        capacity as real)
  {
    hide Rate;
  }

  /** In numbers: at one a minute, a check refused at 59 makes the difference for two threads that
      read 30 and 31. */
  lemma EarlyReadingCounts()
    ensures var m, r, rest := map[0 := Bucket(0.0, 0.0)], Request(0, 59.0), [Request(0, 30.0), Request(0, 31.0)];
      && AnswerTo(1, m, r).RetryAfter?
      && AnswerAt(1, Checked(1, m, r), rest, 1) == Accepted && AnswerAt(1, m, rest, 1).RetryAfter?
  {
    var m, r, rest := map[0 := Bucket(0.0, 0.0)], Request(0, 59.0), [Request(0, 30.0), Request(0, 31.0)];
    assert Rate(1) == 1.0 / 60.0;
    assert Checked(1, m, r) == map[0 := Bucket(59.0 / 60.0, 59.0)];
    assert Checked(1, Checked(1, m, r), rest[0]) == map[0 := Bucket(59.0 / 60.0, 30.0)];
    assert Checked(1, m, rest[0]) == map[0 := Bucket(0.5, 30.0)];
    TwoChecks(1, m, rest[0], rest[1]);
    TwoChecks(1, Checked(1, m, r), rest[0], rest[1]);
  }

  /** At the instant a token is complete after the late check, it is not without it. */
  lemma LateRefusalShows(capacity: nat, m: Buckets, r: Request)
    requires capacity > 0 && Full(capacity, m) && AnswerTo(capacity, m, r).RetryAfter?
    requires r.ip in m && r.at < m[r.ip].lastRefill
    ensures exists rest: seq<Request>, k: nat :: NoneEarlier(r, rest) && !AnswerKept(capacity, m, r, rest, k)
  {
    var b := m[r.ip];
    RefusedTokens(capacity, m, r);
    var need := (1.0 - b.tokens) / Rate(capacity);
    var at := r.at + need;
    WaitPositive(capacity, b.tokens);
    GainReaches(capacity, b.tokens, r.at, at, need);
    GainReaches(capacity, b.tokens, b.lastRefill, MaxReal(b.lastRefill, at), need);
    LateProbe(capacity, m, r, at);
    var probe := Request(r.ip, at);
    hide Level, Checked, Full, Rate, Gained, AnswerTo;
    assert After(capacity, m, [probe], 0) == m;
    assert After(capacity, Checked(capacity, m, r), [probe], 0) == Checked(capacity, m, r);
    assert NoneEarlier(r, [probe]) && !AnswerKept(capacity, m, r, [probe], 0);
  }

  lemma GainReaches(capacity: nat, level: real, s: real, t: real, need: real)
    requires capacity > 0 && need == (1.0 - level) / Rate(capacity)
    ensures level + Gained(capacity, s, t) >= 1.0 <==> t - s >= need
  {
    WaitReaches(capacity, level, t - s);
  }

  lemma LateProbe(capacity: nat, m: Buckets, r: Request, at: real)
    requires capacity > 0 && Full(capacity, m) && AnswerTo(capacity, m, r).RetryAfter?
    requires r.ip in m && r.at < m[r.ip].lastRefill && r.at < at
    requires m[r.ip].tokens + Gained(capacity, r.at, at) >= 1.0
    requires m[r.ip].tokens + Gained(capacity, m[r.ip].lastRefill, MaxReal(m[r.ip].lastRefill, at)) < 1.0
    ensures AnswerTo(capacity, Checked(capacity, m, r), Request(r.ip, at)) == Accepted
    ensures AnswerTo(capacity, m, Request(r.ip, at)).RetryAfter?
  {
    var b, m1 := m[r.ip], Checked(capacity, m, r);
    RefusedTokens(capacity, m, r);
    CheckKeepsFull(capacity, m, r);
    LateBucket(capacity, m, r);
    LevelIs(capacity, m1, r.ip, at);
    LevelIs(capacity, m, r.ip, at);
    hide Level, Checked, Full, Rate, Gained, WaitFor;
  }

  lemma LateBucket(capacity: nat, m: Buckets, r: Request)
    requires capacity > 0 && Full(capacity, m) && r.ip in m && r.at < m[r.ip].lastRefill && m[r.ip].tokens < 1.0
    ensures Checked(capacity, m, r)[r.ip] == Bucket(m[r.ip].tokens, r.at)
  {
    assert 0.0 * Rate(capacity) == 0.0;
  }

  lemma WaitPositive(capacity: nat, level: real)
    requires capacity > 0 && level < 1.0
    ensures (1.0 - level) / Rate(capacity) > 0.0
  {}

  // ---- Retry-After ----

  lemma CeilBounds(x: real)
    ensures (Ceil(x) - 1) as real < x <= Ceil(x) as real
  {}

  /** The level `wait` seconds after a refusal reaches one token exactly when `wait` reaches the
      time the missing part takes to flow in. */
  lemma WaitReaches(capacity: nat, level: real, wait: real)
    requires capacity > 0
    ensures level + wait * Rate(capacity) >= 1.0 <==> wait >= (1.0 - level) / Rate(capacity)
  {
    var need := (1.0 - level) / Rate(capacity);
    assert need * Rate(capacity) == 1.0 - level;
    if wait >= need {
      RateTimes(capacity, need, wait);
    } else {
      RateTimes(capacity, wait, need);
    }
  }

  lemma WaitExact(capacity: nat, level: real, wait: real)
    requires capacity > 0 && level < 1.0
    ensures var s := WaitFor(capacity, level);
      && (wait >= s as real ==> level + wait * Rate(capacity) >= 1.0)
      && (s >= 2 && wait <= (s - 1) as real ==> level + wait * Rate(capacity) < 1.0)
  {
    hide Ceil;
    CeilBounds((1.0 - level) / Rate(capacity));
    WaitReaches(capacity, level, wait);
  }

  /** The IP's own checks after `r` read the clock in order, up to `at`. */
  predicate OwnInOrder(r: Request, rest: seq<Request>, at: real) {
    && r.at <= at
    && (forall i :: 0 <= i < |rest| && rest[i].ip == r.ip ==> r.at <= rest[i].at <= at)
    && (forall i, j :: 0 <= i <= j < |rest| && rest[i].ip == r.ip && rest[j].ip == r.ip ==> rest[i].at <= rest[j].at)
  }

  /** Retry-After is exact. After a refusal at `r` answering `s`, let any requests follow of which
      none of this IP is accepted: whatever their order, a check of the IP `s` or more seconds after
      the refusal is accepted; and, when s >= 2 and its own checks read the clock in order, one at
      most s - 1 seconds after it is refused. */
  lemma RetryAfterExact(capacity: nat, m: Buckets, r: Request, rest: seq<Request>, at: real)
    requires capacity > 0 && Full(capacity, m) && AnswerTo(capacity, m, r).RetryAfter?
    requires var m1 := Checked(capacity, m, r);
      forall k :: 0 <= k < |rest| && rest[k].ip == r.ip ==> AnswerAt(capacity, m1, rest, k).RetryAfter?
    ensures var s := AnswerTo(capacity, m, r).seconds;
      var m2 := After(capacity, Checked(capacity, m, r), rest, |rest|);
      && (at >= r.at + s as real ==> AnswerTo(capacity, m2, Request(r.ip, at)) == Accepted)
      && (OwnInOrder(r, rest, at) && s >= 2 && at <= r.at + (s - 1) as real
          ==> AnswerTo(capacity, m2, Request(r.ip, at)).RetryAfter?)
  {
    hide Rate, Full, After, Level, Checked, WaitFor, OwnInOrder;
    var m1 := Checked(capacity, m, r);
    CheckKeepsFull(capacity, m, r);
    CheckedBucket(capacity, m, r);
    LevelNeverLowered(capacity, m1, r, rest, |rest|, at);
    if OwnInOrder(r, rest, at) {
      LevelHeld(capacity, m1, r, rest, |rest|, at);
      OrderedIsLater(r, rest, at);
    }
    if r.at <= at {
      LevelAfterRefusal(capacity, m, r, at);
      WaitExact(capacity, Level(capacity, m, r.ip, r.at), at - r.at);
    }
  }

  lemma OrderedIsLater(r: Request, rest: seq<Request>, at: real)
    requires OwnInOrder(r, rest, at)
    ensures r.at <= at
  {}

  /** A refused check never lowers the level at any instant, late or not. */
  lemma RefusalNeverLowers(capacity: nat, m: Buckets, r: Request, at: real)
    requires capacity > 0 && Full(capacity, m) && AnswerTo(capacity, m, r).RetryAfter?
    ensures Level(capacity, Checked(capacity, m, r), r.ip, at) >= Level(capacity, m, r.ip, at)
  {
    RefusedTokens(capacity, m, r);
    var l := m[r.ip].lastRefill;
    var m1 := Checked(capacity, m, r);
    assert m1[r.ip] == Bucket(Level(capacity, m, r.ip, r.at), r.at);
    LevelIs(capacity, m, r.ip, r.at);
    LevelIs(capacity, m, r.ip, at);
    CheckKeepsFull(capacity, m, r);
    LevelIs(capacity, m1, r.ip, at);
    GainedInTwo(capacity, l, r.at, at);
    hide Level, Gained, Checked;
  }

  lemma LevelIs(capacity: nat, m: Buckets, ip: nat, at: real)
    requires Full(capacity, m) && ip in m
    ensures Level(capacity, m, ip, at)
            == MinReal(m[ip].tokens + Gained(capacity, m[ip].lastRefill, MaxReal(m[ip].lastRefill, at)),
                capacity as real)
  {
    GainedAdds(capacity, at, m[ip].lastRefill, m[ip].lastRefill);
    assert 0.0 * Rate(capacity) == 0.0;
  }

  /** Refilling by way of an instant in between, earlier or later, never gains less. */
  lemma GainedInTwo(capacity: nat, l: real, r: real, at: real)
    ensures Gained(capacity, l, MaxReal(l, r)) + Gained(capacity, r, MaxReal(r, at))
        >= Gained(capacity, l, MaxReal(l, at))
  {
    var x := (MaxReal(l, r) - l) + (MaxReal(r, at) - r);
    RateTimes(capacity, MaxReal(l, at) - l, x);
    hide Rate;
    assert x * Rate(capacity) == Gained(capacity, l, MaxReal(l, r)) + Gained(capacity, r, MaxReal(r, at));
  }

  lemma {:induction false} LevelNeverLowered(capacity: nat, m1: Buckets, r: Request, rest: seq<Request>, k: nat,
          at: real)
    requires capacity > 0 && Full(capacity, m1) && k <= |rest|
    requires forall i :: 0 <= i < |rest| && rest[i].ip == r.ip ==> AnswerAt(capacity, m1, rest, i).RetryAfter?
    ensures Level(capacity, After(capacity, m1, rest, k), r.ip, at) >= Level(capacity, m1, r.ip, at)
  {
    hide Rate, Level, Full;
    if k > 0 {
      LevelNeverLowered(capacity, m1, r, rest, k - 1, at);
      TokensBounded(capacity, m1, rest, k - 1);
      if rest[k - 1].ip == r.ip {
        RefusalNeverLowers(capacity, After(capacity, m1, rest, k - 1), rest[k - 1], at);
      } else {
        LevelElsewhere(capacity, After(capacity, m1, rest, k - 1), rest[k - 1], r.ip, at);
      }
    }
  }

  lemma CheckedBucket(capacity: nat, m: Buckets, r: Request)
    ensures var m1 := Checked(capacity, m, r); r.ip in m1 && m1[r.ip].lastRefill == r.at
  {}

  /** A refused bucket, some time on. */
  lemma LevelAfterRefusal(capacity: nat, m: Buckets, r: Request, at: real)
    requires capacity > 0 && Full(capacity, m) && AnswerTo(capacity, m, r).RetryAfter? && r.at <= at
    ensures var level := Level(capacity, m, r.ip, r.at);
      var later := Level(capacity, Checked(capacity, m, r), r.ip, at);
      later >= 1.0 <==> level + (at - r.at) * Rate(capacity) >= 1.0
  {
    assert 0.0 * Rate(capacity) == 0.0;
  }

  /** While none of its checks is accepted and they come in order, an IP's level only depends on the
      time since. */
  lemma {:induction false} LevelHeld(capacity: nat, m1: Buckets, r: Request, rest: seq<Request>, k: nat, at: real)
    requires capacity > 0 && Full(capacity, m1) && r.ip in m1 && m1[r.ip].lastRefill == r.at
    requires OwnInOrder(r, rest, at) && k <= |rest|
    requires forall i :: 0 <= i < |rest| && rest[i].ip == r.ip ==> AnswerAt(capacity, m1, rest, i).RetryAfter?
    ensures var m2 := After(capacity, m1, rest, k);
      && r.ip in m2 && r.at <= m2[r.ip].lastRefill
      && (forall i :: k <= i < |rest| && rest[i].ip == r.ip ==> m2[r.ip].lastRefill <= rest[i].at)
      && Level(capacity, m2, r.ip, at) == Level(capacity, m1, r.ip, at)
  {
    hide Rate, Level, Full;
    if k > 0 {
      LevelHeld(capacity, m1, r, rest, k - 1, at);
      TokensBounded(capacity, m1, rest, k - 1);
      if rest[k - 1].ip == r.ip {
        RefillsCompose(capacity, After(capacity, m1, rest, k - 1), rest[k - 1], at);
      } else {
        LevelElsewhere(capacity, After(capacity, m1, rest, k - 1), rest[k - 1], r.ip, at);
      }
    }
  }
}
