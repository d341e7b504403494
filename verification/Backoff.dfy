/**
 Backoff delays: the clamped geometric delay of the network manager, and the saturating doubling
 of the service publishers. Durations are reals; a random fraction is a parameter in [0, 1].
 */
module Backoff {

  // ------------------------------------------------------------------ the network manager's delay

  datatype Policy = Policy(baseDelay: real, maxDelay: real, backoff: real, jitter: real)

  function Pow(b: real, k: nat): real {
    if k == 0 then 1.0 else b * Pow(b, k - 1)
  }

  function Min(a: real, b: real): real {
    if a > b then b else a
  }

  /** `GetNextDelay` before jitter. */
  function Clamped(p: Policy, attempt: nat): real {
    Min(p.baseDelay * Pow(p.backoff, attempt), p.maxDelay)
  }

  predicate IsFraction(u: real) { 0.0 <= u <= 1.0 }

  function NextDelay(p: Policy, attempt: nat, u: real): real
    requires IsFraction(u)
  {
    var delay := Clamped(p, attempt);
    if p.jitter > 0.0 then delay + u * p.jitter * delay else delay
  }

  lemma {:induction false} PowPositive(b: real, k: nat)
    requires b > 0.0
    ensures Pow(b, k) > 0.0
  {
    if k > 0 { PowPositive(b, k - 1); }
  }

  lemma {:induction false} PowGrows(b: real, j: nat, k: nat)
    requires b >= 1.0 && j <= k
    ensures 1.0 <= Pow(b, j) <= Pow(b, k)
    decreases k
  {
    if j < k {
      PowGrows(b, j, k - 1);
    } else if k > 0 {
      PowGrows(b, k - 1, k - 1);
    }
  }

  lemma ScaleMonotone(c: real, x: real, y: real)
    requires c >= 0.0 && x <= y
    ensures c * x <= c * y
  {
  }

  lemma ClampSaturates(base: real, cap: real, x: real, y: real)
    requires base >= 0.0 && x <= y && base * x > cap
    ensures Min(base * y, cap) == cap
  {
    ScaleMonotone(base, x, y);
  }

  lemma StaysSaturated(p: Policy, k: nat, n: nat)
    requires p.baseDelay >= 0.0 && p.backoff >= 1.0 && k <= n && p.baseDelay * Pow(p.backoff, k) > p.maxDelay
    ensures Clamped(p, n) == p.maxDelay
  {
    PowGrows(p.backoff, k, n);
    ClampSaturates(p.baseDelay, p.maxDelay, Pow(p.backoff, k), Pow(p.backoff, n));
  }

  predicate Sensible(p: Policy) {
    p.baseDelay > 0.0 && p.maxDelay > 0.0 && p.backoff > 0.0
  }

  lemma DelaysArePositive(p: Policy, attempt: nat)
    requires Sensible(p)
    ensures 0.0 < Clamped(p, attempt) <= p.maxDelay
  {
    PowPositive(p.backoff, attempt);
    assert p.baseDelay * Pow(p.backoff, attempt) > 0.0;
  }

  lemma DelaysGrow(p: Policy, j: nat, k: nat)
    requires p.baseDelay >= 0.0 && p.backoff >= 1.0 && j <= k
    ensures Clamped(p, j) <= Clamped(p, k)
  {
    PowGrows(p.backoff, j, k);
    ScaleMonotone(p.baseDelay, Pow(p.backoff, j), Pow(p.backoff, k));
  }

  /** Jitter only lengthens a delay, and by at most its own proportion. */
  lemma JitterIsBounded(p: Policy, attempt: nat, u: real)
    requires Sensible(p) && IsFraction(u) && p.jitter >= 0.0
    ensures Clamped(p, attempt) <= NextDelay(p, attempt, u) <= p.maxDelay * (1.0 + p.jitter)
  {
    DelaysArePositive(p, attempt);
    var delay, extra := Clamped(p, attempt), u * p.jitter;
    ScaleMonotone(p.jitter, u, 1.0);
    assert 0.0 <= extra <= p.jitter;
    ScaleMonotone(delay, 0.0, extra);
    ScaleMonotone(delay, extra, p.jitter);
    ScaleMonotone(1.0 + p.jitter, delay, p.maxDelay);
  }

  // ------------------------------------------------------------------ total waiting time

  /** The unjittered wait after `n` failures in a row. */
  function TotalWait(p: Policy, n: nat): real {
    if n == 0 then 0.0 else TotalWait(p, n - 1) + Clamped(p, n - 1)
  }

  lemma {:induction false} TotalWaitIsCapped(p: Policy, n: nat)
    ensures TotalWait(p, n) <= n as real * p.maxDelay
  {
    if n > 0 {
      TotalWaitIsCapped(p, n - 1);
      assert n as real * p.maxDelay == (n - 1) as real * p.maxDelay + p.maxDelay;
    }
  }

  lemma TotalWaitAtMost(p: Policy, n: nat, m: nat)
    requires n <= m && p.maxDelay >= 0.0
    ensures TotalWait(p, n) <= m as real * p.maxDelay
  {
    TotalWaitIsCapped(p, n);
    assert (m - n) as real * p.maxDelay >= 0.0;
    assert m as real * p.maxDelay == n as real * p.maxDelay + (m - n) as real * p.maxDelay;
  }

  function GeometricSum(base: real, b: real, n: nat): real {
    if n == 0 then 0.0 else GeometricSum(base, b, n - 1) + base * Pow(b, n - 1)
  }

  /** And at most the geometric sum of the unclamped delays. */
  lemma {:induction false} TotalWaitIsGeometric(p: Policy, n: nat)
    ensures TotalWait(p, n) <= GeometricSum(p.baseDelay, p.backoff, n)
  {
    if n > 0 { TotalWaitIsGeometric(p, n - 1); }
  }

  lemma {:induction false} GeometricSumIs(base: real, b: real, n: nat)
    ensures (b - 1.0) * GeometricSum(base, b, n) == base * (Pow(b, n) - 1.0)
  {
    if n > 0 {
      GeometricSumIs(base, b, n - 1);
      GeometricStep(b, base, GeometricSum(base, b, n - 1), Pow(b, n - 1), GeometricSum(base, b, n), Pow(b, n));
    }
  }

  lemma GeometricStep(b: real, base: real, sum: real, power: real, sum': real, power': real)
    requires (b - 1.0) * sum == base * (power - 1.0)
    requires sum' == sum + base * power && power' == b * power
    ensures (b - 1.0) * sum' == base * (power' - 1.0)
  {
    assert (b - 1.0) * (sum + base * power) == (b - 1.0) * sum + (b - 1.0) * (base * power);
    GeometricAlgebra(b, base, power);
  }

  lemma GeometricAlgebra(b: real, base: real, power: real)
    ensures base * (power - 1.0) + (b - 1.0) * (base * power) == base * (b * power - 1.0)
  {
    assert (b - 1.0) * (base * power) == b * (base * power) - base * power;
    assert b * (base * power) == base * (b * power);
  }

  // ------------------------------------------------------------------ the publishers' doubling

  /** Failures since the last success. */
  function TrailingFailures(outcomes: seq<bool>): nat {
    if outcomes == [] || outcomes[|outcomes| - 1] then 0
    else 1 + TrailingFailures(outcomes[..|outcomes| - 1])
  }

  function Successes(outcomes: seq<bool>): nat {
    if outcomes == [] then 0
    else Successes(outcomes[..|outcomes| - 1]) + (if outcomes[|outcomes| - 1] then 1 else 0)
  }

  /** The manager's delay with backoff 2 and no jitter. */
  function Doubled(base: real, cap: real, k: nat): real {
    Clamped(Policy(base, cap, 2.0, 0.0), k)
  }

  /** Doubling with saturation takes the closed form one failure further. */
  lemma DoublingStep(base: real, cap: real, k: nat)
    requires base > 0.0 && cap > 0.0
    ensures Min(Doubled(base, cap, k) * 2.0, cap) == Doubled(base, cap, k + 1)
  {
    PowPositive(2.0, k);
    var x := base * Pow(2.0, k);
    assert x > 0.0;
    assert base * Pow(2.0, k + 1) == x * 2.0;
  }

  const PY_BASE := 1.0
  const PY_CAP := 30.0
  const HEARTBEAT := 30.0

  lemma HalfJitter(base: real, cap: real, k: nat, u: real)
    requires IsFraction(u)
    ensures NextDelay(Policy(base, cap, 2.0, 0.5), k, u) == Doubled(base, cap, k) + u * (Doubled(base, cap, k) * 0.5)
  {
  }

  /** The pause after round `i`: a heartbeat after a success, the jittered backoff after a failure. */
  predicate IsPause(outcomes: seq<bool>, i: nat, u: real, pause: real)
    requires i < |outcomes| && IsFraction(u)
  {
    if outcomes[i] then 30.0 <= pause <= 33.0
    else pause == NextDelay(Policy(PY_BASE, PY_CAP, 2.0, 0.5), TrailingFailures(outcomes[..i]), u)
  }

  /** The index of the first success, or -1. */
  predicate IsFirstSuccess(outcomes: seq<bool>, i: int) {
    if i == -1 then true !in outcomes
    else 0 <= i < |outcomes| && outcomes[i] && true !in outcomes[..i]
  }

  lemma TrailingStep(outcomes: seq<bool>, n: nat)
    requires n < |outcomes|
    ensures TrailingFailures(outcomes[..n + 1]) == if outcomes[n] then 0 else TrailingFailures(outcomes[..n]) + 1
    ensures Successes(outcomes[..n + 1]) == Successes(outcomes[..n]) + if outcomes[n] then 1 else 0
  {
    assert outcomes[..n + 1][..n] == outcomes[..n];
  }

  lemma FirstSuccessStep(outcomes: seq<bool>, n: nat, i: int)
    requires n < |outcomes| && IsFirstSuccess(outcomes[..n], i)
    ensures IsFirstSuccess(outcomes[..n + 1], if i == -1 && outcomes[n] then n else i)
  {
    assert outcomes[..n + 1] == outcomes[..n] + [outcomes[n]];
    assert 0 <= i ==> outcomes[..n + 1][..i] == outcomes[..n][..i];
    assert outcomes[..n + 1][..n] == outcomes[..n];
  }

  /**
   The Python background publisher over a trace of registration outcomes, with the random
   fractions that it draws. `announced` is the round whose success is logged as the registration;
   later successes are logged as heartbeats.
   */
  method BackgroundPublisher(outcomes: seq<bool>, fractions: seq<real>)
    returns (intervals: seq<real>, delay: real, announced: int, heartbeats: nat)
    requires |fractions| == |outcomes| && forall i :: 0 <= i < |fractions| ==> IsFraction(fractions[i])
    ensures delay == Doubled(PY_BASE, PY_CAP, TrailingFailures(outcomes))
    ensures |intervals| == |outcomes|
    ensures forall i :: 0 <= i < |outcomes| ==> IsPause(outcomes, i, fractions[i], intervals[i])
    ensures IsFirstSuccess(outcomes, announced)
    ensures heartbeats + (if announced == -1 then 0 else 1) == Successes(outcomes)
  {
    delay, intervals := PY_BASE, [];
    var isFirstSuccess := true;
    announced, heartbeats := -1, 0;
    for n := 0 to |outcomes|
      invariant delay == Doubled(PY_BASE, PY_CAP, TrailingFailures(outcomes[..n]))
      invariant |intervals| == n
      invariant forall i :: 0 <= i < n ==> IsPause(outcomes, i, fractions[i], intervals[i])
      invariant isFirstSuccess <==> announced == -1
      invariant IsFirstSuccess(outcomes[..n], announced)
      invariant heartbeats + (if announced == -1 then 0 else 1) == Successes(outcomes[..n])
    {
      TrailingStep(outcomes, n);
      FirstSuccessStep(outcomes, n, announced);
      DoublingStep(PY_BASE, PY_CAP, TrailingFailures(outcomes[..n]));
      HalfJitter(PY_BASE, PY_CAP, TrailingFailures(outcomes[..n]), fractions[n]);
      var registered := false;
      if outcomes[n] {
        registered := true;
        if isFirstSuccess {
          announced, isFirstSuccess := n, false;
        } else {
          heartbeats := heartbeats + 1;
        }
        delay := PY_BASE;
      }
      var interval;
      if registered {
        interval := HEARTBEAT + fractions[n] * 3.0;
      } else {
        var jitter := fractions[n] * (delay * 0.5);
        interval := delay + jitter;
        delay := Min(delay * 2.0, PY_CAP);
      }
      intervals := intervals + [interval];
    }
    assert outcomes[..|outcomes|] == outcomes;
  }

  const GO_BASE := 500.0
  const GO_CAP := 30000.0

  datatype PublishResult = Published | Cancelled

  /**
   Go's `PublishSync`, in milliseconds, over a trace of outcomes after which the context is
   cancelled; `sleeps` are the pauses between attempts.
   */
  method PublishSync(outcomes: seq<bool>, fractions: seq<real>) returns (result: PublishResult, sleeps: seq<real>)
    requires |fractions| == |outcomes| && forall i :: 0 <= i < |fractions| ==> IsFraction(fractions[i])
    ensures result.Published? <==> exists i :: 0 <= i < |outcomes| && outcomes[i]
    ensures |sleeps| <= |outcomes| && forall i :: 0 <= i < |sleeps| ==> !outcomes[i]
    ensures result.Published? ==> |sleeps| < |outcomes| && outcomes[|sleeps|]
    ensures result.Cancelled? ==> |sleeps| == |outcomes|
    ensures forall i :: 0 <= i < |sleeps| ==> sleeps[i] == NextDelay(Policy(GO_BASE, GO_CAP, 2.0, 0.5), i, fractions[i])
  {
    var delay := GO_BASE;
    sleeps := [];
    for n := 0 to |outcomes|
      invariant |sleeps| == n && forall i :: 0 <= i < n ==> !outcomes[i]
      invariant delay == Doubled(GO_BASE, GO_CAP, n)
      invariant forall i :: 0 <= i < n ==> sleeps[i] == NextDelay(Policy(GO_BASE, GO_CAP, 2.0, 0.5), i, fractions[i])
    {
      if outcomes[n] { return Published, sleeps; }
      var jitter := fractions[n] * (delay / 2.0);
      sleeps := sleeps + [delay + jitter];
      DoublingStep(GO_BASE, GO_CAP, n);
      HalfJitter(GO_BASE, GO_CAP, n, fractions[n]);
      delay := delay * 2.0;
      if delay > GO_CAP {
        delay := GO_CAP;
      }
    }
    return Cancelled, sleeps;
  }

  /** The cap, `n` times. */
  function Repeated(cap: real, n: nat): real {
    if n == 0 then 0.0 else Repeated(cap, n - 1) + cap
  }

  lemma {:induction false} RepeatedIs(cap: real, n: nat)
    ensures Repeated(cap, n) == n as real * cap
  {
    if n > 0 { RepeatedIs(cap, n - 1); }
  }

  /** The unclamped delay exceeds the maximum. */
  predicate Saturated(p: Policy, attempt: nat) {
    p.baseDelay * Pow(p.backoff, attempt) > p.maxDelay
  }

  lemma LastDelay(p: Policy, k: nat, n: nat)
    requires p.baseDelay >= 0.0 && p.backoff >= 1.0 && Saturated(p, k) && k < n
    ensures TotalWait(p, n) == TotalWait(p, n - 1) + p.maxDelay
  {
    StaysSaturated(p, k, n - 1);
  }

  /** Once the delay is saturated, every further failure adds exactly the maximum. */
  lemma {:induction false} SaturatedDelays(p: Policy, k: nat, n: nat)
    requires p.baseDelay >= 0.0 && p.backoff >= 1.0 && Saturated(p, k) && k <= n
    ensures TotalWait(p, n) == TotalWait(p, k) + Repeated(p.maxDelay, n - k)
    decreases n
  {
    if n > k {
      SaturatedDelays(p, k, n - 1);
      LastDelay(p, k, n);
    }
  }

  /** Exactly how long the Python publisher has waited, jitter aside, after five or more failures in a row. */
  lemma PythonTotalWait(n: nat)
    requires n >= 5
    ensures TotalWait(Policy(PY_BASE, PY_CAP, 2.0, 0.0), n) == 31.0 + 30.0 * (n - 5) as real
  {
    PowersOfTwo();
    var p := Policy(PY_BASE, PY_CAP, 2.0, 0.0);
    assert TotalWait(p, 2) == 3.0;
    assert TotalWait(p, 4) == 15.0;
    assert TotalWait(p, 5) == 31.0;
    SaturatedDelays(p, 5, n);
    RepeatedIs(PY_CAP, n - 5);
  }

  lemma PowersOfTwo()
    ensures Pow(2.0, 0) == 1.0 && Pow(2.0, 1) == 2.0 && Pow(2.0, 2) == 4.0 && Pow(2.0, 3) == 8.0
    ensures Pow(2.0, 4) == 16.0 && Pow(2.0, 5) == 32.0 && Pow(2.0, 6) == 64.0
  {
    assert Pow(2.0, 2) == 4.0;
    assert Pow(2.0, 4) == 16.0;
  }

  /** The same for Go's publisher, in milliseconds, after six or more failures. */
  lemma GoTotalWait(n: nat)
    requires n >= 6
    ensures TotalWait(Policy(GO_BASE, GO_CAP, 2.0, 0.0), n) == 31500.0 + 30000.0 * (n - 6) as real
  {
    PowersOfTwo();
    var p := Policy(GO_BASE, GO_CAP, 2.0, 0.0);
    assert TotalWait(p, 2) == 1500.0;
    assert TotalWait(p, 4) == 7500.0;
    assert TotalWait(p, 6) == 31500.0;
    SaturatedDelays(p, 6, n);
    RepeatedIs(GO_CAP, n - 6);
  }

  // ------------------------------------------------------------------ the publishers' pauses

  /** Python, in seconds, after `k` failures and before jitter. */
  function PythonPause(k: nat): real {
    if k == 0 then 1.0 else if k == 1 then 2.0 else if k == 2 then 4.0 else if k == 3 then 8.0
    else if k == 4 then 16.0 else 30.0
  }

  /** Go, in milliseconds. */
  function GoPause(k: nat): real {
    if k == 0 then 500.0 else if k == 1 then 1000.0 else if k == 2 then 2000.0 else if k == 3 then 4000.0
    else if k == 4 then 8000.0 else if k == 5 then 16000.0 else 30000.0
  }

  /** Doubling up to half a minute, with up to half of the pause as jitter on top. */
  lemma PausesAre(k: nat, u: real)
    requires IsFraction(u)
    ensures NextDelay(Policy(PY_BASE, PY_CAP, 2.0, 0.5), k, u) == PythonPause(k) + u * (PythonPause(k) / 2.0)
    ensures NextDelay(Policy(GO_BASE, GO_CAP, 2.0, 0.5), k, u) == GoPause(k) + u * (GoPause(k) / 2.0)
  {
    HalfJitter(PY_BASE, PY_CAP, k, u);
    HalfJitter(GO_BASE, GO_CAP, k, u);
    DoubledIsPause(k);
  }

  lemma {:induction false} DoubledIsPause(k: nat)
    ensures Doubled(PY_BASE, PY_CAP, k) == PythonPause(k)
    ensures Doubled(GO_BASE, GO_CAP, k) == GoPause(k)
  {
    if k > 0 {
      DoubledIsPause(k - 1);
      DoublingStep(PY_BASE, PY_CAP, k - 1);
      DoublingStep(GO_BASE, GO_CAP, k - 1);
    }
  }
}
