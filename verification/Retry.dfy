/**
 How often the retry loops dial, report and sleep. The network is a script: the outcome of each
 dial in turn. When the script ends before the loop does, the observation ends with it, so infinite
 retries are covered by all scripts.
 */
module Retry {
  import opened Backoff
  import opened Wrappers

  /** What the outside sees: dials made, attempt numbers given to the error hook, attempt indices slept for. */
  datatype Ledger = Ledger(dials: nat, hooks: seq<nat>, waits: seq<nat>)

  datatype Outcome = Connected | GaveUp | Unfinished

  const INFINITE := -1

  // ------------------------------------------------------------------ the accounts

  /** Failures before the first success, or before the end of the script. */
  function Leading(script: seq<bool>): (n: nat)
    ensures n <= |script|
    ensures forall i :: 0 <= i < n ==> !script[i]
    ensures n < |script| ==> script[n]
  {
    if script == [] || script[0] then 0 else 1 + Leading(script[1..])
  }

  function Numbers(first: nat, n: nat): (s: seq<nat>)
    ensures |s| == n && forall i :: 0 <= i < n ==> s[i] == first + i
  {
    seq(n, i => first + i)
  }

  /** The retries that a bound allows; None for the infinite setting. */
  function Allowed(maxRetries: int): Option<nat> {
    if maxRetries == INFINITE then None else Some(if maxRetries < 0 then 0 else maxRetries)
  }

  function OutcomeWithin(script: seq<bool>, budget: Option<nat>): Outcome {
    if budget.Some? && Leading(script) >= budget.value then GaveUp
    else if Leading(script) < |script| then Connected else Unfinished
  }

  function DialsWithin(script: seq<bool>, budget: Option<nat>): (n: nat)
    ensures n <= |script|
  {
    if budget.Some? && Leading(script) >= budget.value then budget.value
    else if Leading(script) < |script| then Leading(script) + 1 else Leading(script)
  }

  /** Failures that are reported and slept for. */
  function Reported(script: seq<bool>, maxRetries: int): nat {
    var allowed := Allowed(maxRetries);
    if allowed.Some? && Leading(script) > allowed.value then allowed.value else Leading(script)
  }

  /** A reconnect may dial once more than it may retry, an initial connect may not. */
  function ReconnectBudget(maxRetries: int): Option<nat> {
    if maxRetries == INFINITE then None else Some(Allowed(maxRetries).value + 1)
  }

  function Booked(l: Ledger, dials: nat, reported: nat): Ledger {
    Ledger(l.dials + dials, l.hooks + Numbers(1, reported), l.waits + Numbers(0, reported))
  }

  function AfterReconnect(l: Ledger, script: seq<bool>, maxRetries: int): Ledger {
    Booked(l, DialsWithin(script, ReconnectBudget(maxRetries)), Reported(script, maxRetries))
  }

  function AfterConnectWithRetry(l: Ledger, script: seq<bool>, maxRetries: int): Ledger {
    Booked(l, DialsWithin(script, Allowed(maxRetries)), Reported(script, maxRetries))
  }

  datatype WriteResult = Sent | NotConnected | Failed | StillTrying

  /** What a write reports when its reconnect did not connect. */
  function Unreachable(outcome: Outcome): WriteResult {
    if outcome.GaveUp? then NotConnected else StillTrying
  }

  /** The second attempt of a write: reconnect, then send again. */
  function AfterResend(l: Ledger, script: seq<bool>, maxRetries: int, second: bool): (WriteResult, Ledger, bool)
    requires l.dials <= |script|
  {
    var rest := script[l.dials..];
    var outcome := OutcomeWithin(rest, ReconnectBudget(maxRetries));
    (if outcome.Connected? then if second then Sent else Failed else Unreachable(outcome),
     AfterReconnect(l, rest, maxRetries), outcome.Connected?)
  }

  /** Result, ledger and connectedness after a write. */
  function AfterWrite(l: Ledger, script: seq<bool>, maxRetries: int, connected: bool, first: bool,
      second: bool): (WriteResult, Ledger, bool)
    requires l.dials <= |script|
  {
    if connected then
      if first then (Sent, l, true) else AfterResend(l, script, maxRetries, second)
    else
      var rest := script[l.dials..];
      var outcome := OutcomeWithin(rest, ReconnectBudget(maxRetries));
      var reached := AfterReconnect(l, rest, maxRetries);
      if !outcome.Connected? then (Unreachable(outcome), reached, false)
      else if first then (Sent, reached, true)
      else AfterResend(reached, script, maxRetries, second)
  }

  // ------------------------------------------------------------------ the loops

  class ManagedConnection {
    const script: seq<bool>
    const maxRetries: int
    var ledger: Ledger
    var connected: bool

    ghost predicate Valid()
      reads this
    {
      ledger.dials <= |script|
    }

    /** The outcomes that are still to come. */
    function Rest(): seq<bool>
      requires Valid()
      reads this
    {
      script[ledger.dials..]
    }

    constructor (script: seq<bool>, maxRetries: int)
      ensures Valid() && !connected && ledger == Ledger(0, [], [])
      ensures this.script == script && this.maxRetries == maxRetries && Rest() == script
    {
      this.script, this.maxRetries := script, maxRetries;
      ledger, connected := Ledger(0, [], []), false;
    }

    /** One dial; None when the script has ended. */
    method EstablishConnection() returns (r: Option<bool>)
      requires Valid()
      modifies this`ledger
      ensures Valid()
      ensures r == if old(Rest()) == [] then None else Some(old(Rest())[0])
      ensures ledger == if r.None? then old(ledger) else old(ledger).(dials := old(ledger).dials + 1)
    {
      if ledger.dials == |script| { return None; }
      r := Some(script[ledger.dials]);
      ledger := ledger.(dials := ledger.dials + 1);
    }

    method OnError(attempt: nat)
      modifies this`ledger
      ensures ledger == old(ledger).(hooks := old(ledger).hooks + [attempt])
    {
      ledger := ledger.(hooks := ledger.hooks + [attempt]);
    }

    method Sleep(attempt: nat)
      modifies this`ledger
      ensures ledger == old(ledger).(waits := old(ledger).waits + [attempt])
    {
      ledger := ledger.(waits := ledger.waits + [attempt]);
    }

    /** The reconnect loop of Go, Python and Rust. */
    method Reconnect() returns (outcome: Outcome)
      requires Valid()
      modifies this
      ensures Valid()
      ensures outcome == OutcomeWithin(old(Rest()), ReconnectBudget(maxRetries))
      ensures ledger == AfterReconnect(old(ledger), old(Rest()), maxRetries)
      ensures connected == (old(connected) || outcome.Connected?)
    {
      ghost var rest := Rest();
      var i := 0;
      while true
        invariant Valid() && connected == old(connected)
        invariant i <= Leading(rest) && ledger == Booked(old(ledger), i, i)
        invariant maxRetries != INFINITE ==> i <= Allowed(maxRetries).value
        decreases |script| - ledger.dials
      {
        var r := EstablishConnection();
        if r.None? { return Unfinished; }
        if r.value {
          connected := true;
          return Connected;
        }
        if maxRetries != INFINITE && i >= maxRetries { return GaveUp; }
        OnError(i + 1);
        Sleep(i);
        i := i + 1;
      }
    }

    /** The initial connect of Go, Python and Rust; C++ reconnects with this loop too. */
    method ConnectWithRetry() returns (outcome: Outcome)
      requires Valid()
      modifies this
      ensures Valid()
      ensures outcome == OutcomeWithin(old(Rest()), Allowed(maxRetries))
      ensures ledger == AfterConnectWithRetry(old(ledger), old(Rest()), maxRetries)
      ensures connected == (old(connected) || outcome.Connected?)
    {
      ghost var rest := Rest();
      var i := 0;
      while maxRetries == INFINITE || i < maxRetries
        invariant Valid() && connected == old(connected)
        invariant i <= Leading(rest) && ledger == Booked(old(ledger), i, i)
        invariant maxRetries != INFINITE ==> i <= Allowed(maxRetries).value
        decreases |script| - ledger.dials
      {
        var r := EstablishConnection();
        if r.None? { return Unfinished; }
        if r.value {
          connected := true;
          return Connected;
        }
        OnError(i + 1);
        Sleep(i);
        i := i + 1;
      }
      return GaveUp;
    }

    /** Reconnects once; a failure is reported with attempt number 1 and the connection is handed out anyway. */
    method ConnectBlocking() returns (outcome: Outcome)
      requires Valid()
      modifies this
      ensures Valid()
      ensures outcome == OutcomeWithin(old(Rest()), ReconnectBudget(maxRetries))
      ensures ledger == AfterConnectBlocking(old(ledger), old(Rest()), maxRetries)
      ensures connected == (old(connected) || outcome.Connected?)
    {
      outcome := Reconnect();
      if outcome.GaveUp? { OnError(1); }
    }

    /** A write by the only user of the connection; `first` and `second` say whether the two sends would succeed. */
    method Write(first: bool, second: bool) returns (result: WriteResult)
      requires Valid()
      modifies this
      ensures Valid()
      ensures (result, ledger, connected) == AfterWrite(old(ledger), script, maxRetries, old(connected), first, second)
    {
      if !connected {
        var outcome := Reconnect();
        if outcome.GaveUp? { return NotConnected; }
        if outcome.Unfinished? { return StillTrying; }
      }
      if first { return Sent; }
      connected := false;
      var outcome := Reconnect();
      if outcome.GaveUp? { return NotConnected; }
      if outcome.Unfinished? { return StillTrying; }
      return if second then Sent else Failed;
    }
  }

  // ------------------------------------------------------------------ what the accounts say

  function AfterConnectBlocking(l: Ledger, script: seq<bool>, maxRetries: int): Ledger {
    var after := AfterReconnect(l, script, maxRetries);
    if OutcomeWithin(script, ReconnectBudget(maxRetries)).GaveUp? then after.(hooks := after.hooks + [1]) else after
  }

  predicate AllFail(script: seq<bool>) {
    true !in script
  }

  lemma {:induction false} LeadingOfFailures(script: seq<bool>)
    ensures AllFail(script) <==> Leading(script) == |script|
  {
    if Leading(script) < |script| {
      assert script[Leading(script)] in script;
    }
  }

  /** A wholly failing reconnect dials MaxRetries + 1 times, reports 1, 2, ..., MaxRetries and sleeps as often. */
  lemma FailingReconnect(l: Ledger, script: seq<bool>, maxRetries: nat)
    requires AllFail(script) && |script| > maxRetries
    ensures OutcomeWithin(script, ReconnectBudget(maxRetries)) == GaveUp
    ensures AfterReconnect(l, script, maxRetries)
         == Ledger(l.dials + maxRetries + 1, l.hooks + Numbers(1, maxRetries), l.waits + Numbers(0, maxRetries))
  {
    LeadingOfFailures(script);
  }

  /** A wholly failing initial connect dials, reports and sleeps exactly MaxRetries times. */
  lemma FailingConnectWithRetry(l: Ledger, script: seq<bool>, maxRetries: nat)
    requires AllFail(script) && |script| >= maxRetries
    ensures OutcomeWithin(script, Allowed(maxRetries)) == GaveUp
    ensures AfterConnectWithRetry(l, script, maxRetries)
         == Ledger(l.dials + maxRetries, l.hooks + Numbers(1, maxRetries), l.waits + Numbers(0, maxRetries))
  {
    LeadingOfFailures(script);
  }

  /** From dial number `start` on, the next `n` dials fail. */
  predicate Fails(script: seq<bool>, start: nat, n: nat) {
    start + n <= |script| && forall i :: start <= i < start + n ==> !script[i]
  }

  /** From dial number `start` on, `n` dials fail and the next one succeeds. */
  predicate SucceedsAfter(script: seq<bool>, start: nat, n: nat) {
    Fails(script, start, n) && start + n < |script| && script[start + n]
  }

  /** `l` after `dials` more dials, of which `reported` were reported as 1, 2, ... and slept for as 0, 1, ... */
  function Charged(l: Ledger, dials: nat, reported: nat): Ledger {
    Ledger(l.dials + dials, l.hooks + seq(reported, i => i + 1), l.waits + seq(reported, i => i))
  }

  lemma ChargedIsBooked(l: Ledger, dials: nat, reported: nat)
    ensures Charged(l, dials, reported) == Booked(l, dials, reported)
  {
    assert seq(reported, i => i + 1) == Numbers(1, reported);
    assert seq(reported, i => i) == Numbers(0, reported);
  }

  lemma LeadingAt(script: seq<bool>, start: nat, n: nat)
    requires Fails(script, start, n)
    ensures Leading(script[start..]) >= n
    ensures SucceedsAfter(script, start, n) ==> Leading(script[start..]) == n
  {
    var rest := script[start..];
    assert forall i :: 0 <= i < n ==> rest[i] == script[start + i];
    if SucceedsAfter(script, start, n) {
      assert rest[n] == script[start + n];
    }
  }

  /** A reconnect goes on after `k` failures. */
  predicate MayRetry(maxRetries: int, k: nat) {
    maxRetries == INFINITE || k == 0 || k <= maxRetries
  }

  /** A reconnect whose dial succeeds after no more failures than it may retry is connected by that dial. */
  lemma SucceedingReconnect(l: Ledger, script: seq<bool>, maxRetries: int, k: nat)
    requires SucceedsAfter(script, l.dials, k) && MayRetry(maxRetries, k)
    ensures OutcomeWithin(script[l.dials..], ReconnectBudget(maxRetries)) == Connected
    ensures AfterReconnect(l, script[l.dials..], maxRetries) == Charged(l, k + 1, k)
  {
    LeadingAt(script, l.dials, k);
    ChargedIsBooked(l, k + 1, k);
  }

  /** A blocking connect that succeeds adds no report of its own. */
  lemma SucceedingConnectBlocking(l: Ledger, script: seq<bool>, maxRetries: int, k: nat)
    requires SucceedsAfter(script, l.dials, k) && MayRetry(maxRetries, k)
    ensures AfterConnectBlocking(l, script[l.dials..], maxRetries) == Charged(l, k + 1, k)
  {
    SucceedingReconnect(l, script, maxRetries, k);
  }

  /** An initial connect is connected by such a dial only if it is among the first MaxRetries. */
  lemma SucceedingConnectWithRetry(l: Ledger, script: seq<bool>, maxRetries: int, k: nat)
    requires SucceedsAfter(script, l.dials, k) && (maxRetries == INFINITE || k < maxRetries)
    ensures OutcomeWithin(script[l.dials..], Allowed(maxRetries)) == Connected
    ensures AfterConnectWithRetry(l, script[l.dials..], maxRetries) == Charged(l, k + 1, k)
  {
    LeadingAt(script, l.dials, k);
    ChargedIsBooked(l, k + 1, k);
  }

  lemma ReconnectGivesUp(l: Ledger, script: seq<bool>, maxRetries: int)
    requires maxRetries != INFINITE && Fails(script, l.dials, Allowed(maxRetries).value + 1)
    ensures OutcomeWithin(script[l.dials..], ReconnectBudget(maxRetries)) == GaveUp
    ensures AfterReconnect(l, script[l.dials..], maxRetries)
         == Charged(l, Allowed(maxRetries).value + 1, Allowed(maxRetries).value)
  {
    LeadingAt(script, l.dials, Allowed(maxRetries).value + 1);
    ChargedIsBooked(l, Allowed(maxRetries).value + 1, Allowed(maxRetries).value);
  }

  // ------------------------------------------------------------------ how a write heals

  /**
   A write over a connection is sent at once if the first send works. If it fails, and the peer is
   back after `k` failures, the write reconnects and its result is that of the second send.
   */
  lemma WriteHeals(l: Ledger, script: seq<bool>, maxRetries: int, second: bool, k: nat)
    requires SucceedsAfter(script, l.dials, k) && MayRetry(maxRetries, k)
    ensures AfterWrite(l, script, maxRetries, true, true, second) == (Sent, l, true)
    ensures AfterWrite(l, script, maxRetries, true, false, second)
         == (if second then Sent else Failed, Charged(l, k + 1, k), true)
  {
    SucceedingReconnect(l, script, maxRetries, k);
  }

  /** A write without a connection reconnects first, and is sent at once if the first send over it works. */
  lemma UnconnectedWriteConnects(l: Ledger, script: seq<bool>, maxRetries: int, second: bool, k: nat)
    requires SucceedsAfter(script, l.dials, k) && MayRetry(maxRetries, k)
    ensures AfterWrite(l, script, maxRetries, false, true, second) == (Sent, Charged(l, k + 1, k), true)
  {
    SucceedingReconnect(l, script, maxRetries, k);
  }

  /** If that send fails it heals as well, with a second reconnect after `k2` more failures. */
  lemma UnconnectedWriteHeals(l: Ledger, script: seq<bool>, maxRetries: int, second: bool, k1: nat, k2: nat)
    requires SucceedsAfter(script, l.dials, k1) && MayRetry(maxRetries, k1)
    requires SucceedsAfter(script, l.dials + k1 + 1, k2) && MayRetry(maxRetries, k2)
    ensures AfterWrite(l, script, maxRetries, false, false, second)
         == (if second then Sent else Failed, Charged(Charged(l, k1 + 1, k1), k2 + 1, k2), true)
  {
    SucceedingReconnect(l, script, maxRetries, k1);
    SucceedingReconnect(Charged(l, k1 + 1, k1), script, maxRetries, k2);
  }

  /** When the peer stays away, a write whose first send fails gives up after exactly one failing reconnect. */
  lemma WriteGivesUp(l: Ledger, script: seq<bool>, maxRetries: int, second: bool)
    requires maxRetries != INFINITE && Fails(script, l.dials, Allowed(maxRetries).value + 1)
    ensures AfterWrite(l, script, maxRetries, true, false, second)
         == (NotConnected, Charged(l, Allowed(maxRetries).value + 1, Allowed(maxRetries).value), false)
  {
    ReconnectGivesUp(l, script, maxRetries);
  }

  /** A write is never without a connection unless its last MaxRetries + 1 dials were made by it and all failed. */
  lemma NotConnectedMeans(l: Ledger, script: seq<bool>, maxRetries: int, connected: bool, first: bool, second: bool)
    requires l.dials <= |script|
    ensures var (result, after, _) := AfterWrite(l, script, maxRetries, connected, first, second);
            result.NotConnected? ==>
              && maxRetries != INFINITE
              && after.dials >= l.dials + Allowed(maxRetries).value + 1
              && Fails(script, after.dials - (Allowed(maxRetries).value + 1), Allowed(maxRetries).value + 1)
  {
    var rest := script[l.dials..];
    assert forall i :: 0 <= i < |rest| ==> rest[i] == script[l.dials + i];
    var reached := AfterReconnect(l, rest, maxRetries);
    var later := script[reached.dials..];
    assert forall i :: 0 <= i < |later| ==> later[i] == script[reached.dials + i];
    if AfterWrite(l, script, maxRetries, connected, first, second).0.NotConnected? {
      if connected || OutcomeWithin(rest, ReconnectBudget(maxRetries)).GaveUp? {
        FailsAfter(script, l.dials, Allowed(maxRetries).value + 1);
      } else {
        FailsAfter(script, reached.dials, Allowed(maxRetries).value + 1);
      }
    }
  }

  lemma FailsAfter(script: seq<bool>, start: nat, n: nat)
    requires start + n <= |script| && Leading(script[start..]) >= n
    ensures Fails(script, start, n)
  {
    forall i | start <= i < start + n ensures !script[i] {
      assert !script[start..][i - start];
    }
  }

  /** A write is only ever left trying when it has used up the script. */
  lemma StillTryingMeans(l: Ledger, script: seq<bool>, maxRetries: int, connected: bool, first: bool, second: bool)
    requires l.dials <= |script|
    ensures var (result, after, _) := AfterWrite(l, script, maxRetries, connected, first, second);
            result.StillTrying? ==> after.dials == |script|
  {
  }

  // ------------------------------------------------------------------ bounds

  /** A failed blocking connect and then a failed write on an unreachable peer: 2 * MaxRetries + 1 reports. */
  lemma FailingBlockingConnectThenWrite(l: Ledger, script: seq<bool>, maxRetries: nat, first: bool, second: bool)
    requires l.dials + 2 * (maxRetries + 1) <= |script| && AllFail(script[l.dials..])
    ensures var afterConnect := AfterConnectBlocking(l, script[l.dials..], maxRetries);
            && afterConnect.dials == l.dials + maxRetries + 1
            && var (result, afterWrite, connected) :=
                AfterWrite(afterConnect, script, maxRetries, false, first, second);
            && result == NotConnected && !connected
            && afterWrite.dials == l.dials + 2 * (maxRetries + 1)
            && afterWrite.hooks == l.hooks + Numbers(1, maxRetries) + [1] + Numbers(1, maxRetries)
            && |afterWrite.hooks| == |l.hooks| + 2 * maxRetries + 1
  {
    var rest := script[l.dials..];
    FailingReconnect(l, rest, maxRetries);
    var afterConnect := AfterConnectBlocking(l, rest, maxRetries);
    var later := script[afterConnect.dials..];
    assert forall outcome <- later :: outcome in rest by {
      assert later == rest[maxRetries + 1..];
    }
    FailingReconnect(afterConnect, later, maxRetries);
    UnconnectedWriteGivesUp(afterConnect, script, maxRetries, first, second);
  }

  /** What a write can cost, for every script and bound: at most two reconnects. */
  lemma WritesAreBounded(l: Ledger, script: seq<bool>, maxRetries: int, connected: bool, first: bool, second: bool)
    requires l.dials <= |script| && maxRetries != INFINITE
    ensures var after := AfterWrite(l, script, maxRetries, connected, first, second).1;
            && after.dials <= l.dials + 2 * (Allowed(maxRetries).value + 1)
            && |after.hooks| <= |l.hooks| + 2 * Allowed(maxRetries).value
  {
  }

  /** What the result of a write means: sent over a connection, or failed twice over one, or left without one. */
  lemma WriteResultsMean(l: Ledger, script: seq<bool>, maxRetries: int, connected: bool, first: bool, second: bool)
    requires l.dials <= |script|
    ensures var w := AfterWrite(l, script, maxRetries, connected, first, second);
            && (w.0.Sent? ==> w.2 && (first || second))
            && (w.0.Failed? ==> w.2 && !first && !second)
            && (w.0.NotConnected? || w.0.StillTrying? <==> !w.2)
  {
  }

  /** A write that gives up on its first reconnect costs exactly that reconnect. */
  lemma UnconnectedWriteGivesUp(l: Ledger, script: seq<bool>, maxRetries: int, first: bool, second: bool)
    requires l.dials <= |script| && OutcomeWithin(script[l.dials..], ReconnectBudget(maxRetries)).GaveUp?
    ensures AfterWrite(l, script, maxRetries, false, first, second)
         == (NotConnected, AfterReconnect(l, script[l.dials..], maxRetries), false)
  {
  }

  /**
   The two loops end differently, for the same setting and the same network, exactly when
   MaxRetries failures come first: the initial connect (and the C++ reconnect) has then given up,
   the others dial once more.
   */
  lemma LoopsDisagreeIff(script: seq<bool>, maxRetries: int)
    ensures OutcomeWithin(script, ReconnectBudget(maxRetries)) != OutcomeWithin(script, Allowed(maxRetries))
       <==> maxRetries != INFINITE && Leading(script) == Allowed(maxRetries).value
  {
  }

  function Slept(p: Policy, waits: seq<nat>): real {
    if waits == [] then 0.0 else Slept(p, waits[..|waits| - 1]) + Clamped(p, waits[|waits| - 1])
  }

  lemma {:induction false} SleptInOrder(p: Policy, n: nat)
    ensures Slept(p, Numbers(0, n)) == TotalWait(p, n)
  {
    if n > 0 {
      assert Numbers(0, n)[..n - 1] == Numbers(0, n - 1);
      SleptInOrder(p, n - 1);
    }
  }

  /** Time spent asleep, jitter aside, in a reconnect with a bound: at most MaxRetries times the longest delay. */
  lemma ReconnectSleepsAtMost(p: Policy, script: seq<bool>, maxRetries: nat)
    requires p.maxDelay >= 0.0
    ensures Slept(p, AfterReconnect(Ledger(0, [], []), script, maxRetries).waits) <= maxRetries as real * p.maxDelay
  {
    var n := Reported(script, maxRetries);
    assert [] + Numbers(0, n) == Numbers(0, n);
    SleptInOrder(p, n);
    TotalWaitAtMost(p, n, maxRetries);
  }
}
