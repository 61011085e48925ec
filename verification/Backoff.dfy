// The retry loop of the libvirt connector.
module Backoff {
  const RECONNECT_DELAY: seq<nat> := [5, 5, 5, 5, 5, 5, 15, 15, 15, 15, 60]

  // The stated policy, by the time waited so far: every 5 seconds for 30
  // seconds, then every 15 for another minute, then every 60.
  function PolicyDelay(waited: nat): nat {
    if waited < 30 then 5 else if waited < 90 then 15 else 60
  }

  // The sum of the first k delays.
  function Waited(delays: seq<nat>, k: nat): nat
    requires k <= |delays|
  {
    if k == 0 then 0 else Waited(delays, k - 1) + delays[k - 1]
  }

  function Min(a: int, b: int): int {
    if a < b then a else b
  }

  function Max(a: int, b: int): int {
    if a < b then b else a
  }

  // Total wait after n failed attempts, in closed form.
  function TotalWait(n: nat): int {
    5 * Min(n, 6) + 15 * Min(Max(n - 6, 0), 4) + 60 * Max(n - 10, 0)
  }

  lemma TotalStep(n: nat)
    ensures 0 <= TotalWait(n) < TotalWait(n + 1) == TotalWait(n) + PolicyDelay(TotalWait(n))
  {
    if n < 6 {
    } else if n < 10 {
    } else {
    }
  }

  // Delays that follow the policy are determined by it: the closed form gives
  // their total, and they never decrease.
  lemma {:induction false} PolicyTotal(delays: seq<nat>, n: nat)
    requires n <= |delays|
    requires forall k :: 0 <= k < n ==> delays[k] == PolicyDelay(Waited(delays, k))
    ensures Waited(delays, n) == TotalWait(n)
    ensures forall j, k :: 0 <= j <= k < n ==> delays[j] <= delays[k]
  {
    if n > 0 {
      PolicyTotal(delays, n - 1);
      TotalStep(n - 1);
      forall j | 0 <= j < n - 1 ensures delays[j] <= delays[n - 1] {
        WaitedGrows(delays, j, n - 1);
      }
    }
  }

  lemma {:induction false} WaitedGrows(delays: seq<nat>, j: nat, k: nat)
    requires j <= k <= |delays|
    ensures Waited(delays, j) <= Waited(delays, k)
  {
    if j < k { WaitedGrows(delays, j, k - 1); }
  }

  lemma {:induction false} WaitedPrefix(delays: seq<nat>, d: nat, k: nat)
    requires k <= |delays|
    ensures Waited(delays + [d], k) == Waited(delays, k)
  {
    if k > 0 { WaitedPrefix(delays, d, k - 1); }
  }

  lemma TableEntry(attempt: nat)
    ensures RECONNECT_DELAY[Min(attempt, |RECONNECT_DELAY| - 1)] == PolicyDelay(TotalWait(attempt))
  {
  }

  // Runs the loop for a connection attempt that succeeds after the given number
  // of failures, and returns the delays it slept.
  method Connector(failures: nat) returns (slept: seq<nat>)
    ensures |slept| == failures
    ensures forall k :: 0 <= k < failures ==> slept[k] == PolicyDelay(Waited(slept, k))
    ensures Waited(slept, failures) == TotalWait(failures)
    ensures forall j, k :: 0 <= j <= k < failures ==> slept[j] <= slept[k]
  {
    slept := [];
    var delayIndex := 0;
    while |slept| < failures
      invariant |slept| <= failures
      invariant delayIndex == Min(|slept|, |RECONNECT_DELAY| - 1)
      invariant forall k :: 0 <= k < |slept| ==> slept[k] == PolicyDelay(Waited(slept, k))
    {
      PolicyTotal(slept, |slept|);
      TableEntry(|slept|);
      ghost var before := slept;
      slept := slept + [RECONNECT_DELAY[delayIndex]];
      forall k | 0 <= k < |slept| ensures slept[k] == PolicyDelay(Waited(slept, k)) {
        WaitedPrefix(before, RECONNECT_DELAY[delayIndex], k);
      }
      if delayIndex < |RECONNECT_DELAY| - 1 {
        delayIndex := delayIndex + 1;
      }
    }
    PolicyTotal(slept, failures);
  }
}
