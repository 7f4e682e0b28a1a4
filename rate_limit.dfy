/** The worker's in-memory limit of 20 requests per client address per minute. */
module RateLimit {
  const MaxRequests: nat := 20
  const WindowMs: nat := 60000

  /** The requests counted for one address and the instant (milliseconds) its window ends. */
  datatype Window = Window(count: nat, expires: int)

  type Limits = map<string, Window>

  /** `checkRateLimit(ip)` at `now`: an expired window is dropped, a missing one starts with
      this request, otherwise the request is counted and allowed while the count is at most 20. */
  function Check(limits: Limits, ip: string, now: int): (r: (Limits, bool))
    ensures ip in r.0
    ensures forall other :: other != ip ==> (other in r.0 <==> other in limits)
    ensures forall other :: other != ip && other in limits ==> r.0[other] == limits[other]
    ensures ip !in limits || now > limits[ip].expires ==> r == (limits[ip := Window(1, now + WindowMs)], true)
    ensures ip in limits && now <= limits[ip].expires ==>
      r.0[ip] == limits[ip].(count := limits[ip].count + 1) && (r.1 <==> limits[ip].count < MaxRequests)
  {
    var live := if ip in limits && now > limits[ip].expires then limits - {ip} else limits;
    if ip !in live then
      assert live[ip := Window(1, now + WindowMs)] == limits[ip := Window(1, now + WindowMs)];
      (live[ip := Window(1, now + WindowMs)], true)
    else
      var w := live[ip].(count := live[ip].count + 1);
      (live[ip := w], w.count <= MaxRequests)
  }

  /** The table after checking `times` in order for one address, and how many were allowed. */
  function CheckAll(limits: Limits, ip: string, times: seq<int>): (Limits, nat) {
    if |times| == 0 then (limits, 0)
    else
      var (l, allowed) := CheckAll(limits, ip, times[..|times| - 1]);
      var (l', ok) := Check(l, ip, times[|times| - 1]);
      (l', if ok then allowed + 1 else allowed)
  }

  function Min(a: nat, b: nat): nat {
    if a <= b then a else b
  }

  /** Within one minute of the request that opened a window, an address gets exactly its first
      20 requests through, and the window counts every request. */
  lemma {:induction false} WindowCap(limits: Limits, ip: string, times: seq<int>)
    requires |times| > 0
    requires ip !in limits || times[0] > limits[ip].expires
    requires forall i :: 0 <= i < |times| ==> times[0] <= times[i] <= times[0] + WindowMs
    ensures ip in CheckAll(limits, ip, times).0
    ensures CheckAll(limits, ip, times).0[ip] == Window(|times|, times[0] + WindowMs)
    ensures CheckAll(limits, ip, times).1 == Min(|times|, MaxRequests)
  {
    var n := |times|;
    if n > 1 {
      var prefix := times[..n - 1];
      assert prefix[0] == times[0];
      assert forall i :: 0 <= i < |prefix| ==> prefix[i] == times[i];
      WindowCap(limits, ip, prefix);
    }
  }

  /** The module-level table of the worker instance. */
  class RateLimiter {
    var limits: Limits

    constructor()
      ensures limits == map[]
    {
      limits := map[];
    }

    method CheckRateLimit(ip: string, now: int) returns (allowed: bool)
      modifies this
      ensures (limits, allowed) == Check(old(limits), ip, now)
    {
      if ip in limits && now > limits[ip].expires {
        limits := limits - {ip};
      }
      if ip !in limits {
        limits := limits[ip := Window(1, now + WindowMs)];
        return true;
      }
      var current := limits[ip].(count := limits[ip].count + 1);
      limits := limits[ip := current];
      allowed := current.count <= MaxRequests;
    }
  }
}
