/** RateLimitMiddleware of app/middleware/rate_limit.py: a sliding window of
    request times per client IP. Before each request the IP's queue loses,
    from the front, every time more than `Window` seconds before now; a full
    queue refuses the request with 429, otherwise now is appended. Times are
    integer seconds handed in by the caller; the limit is the configured
    RATE_LIMIT_PER_MINUTE. */
module RateLimits {
  import opened Common

  const Window: int := 60

  /** The popleft loop: drop the front while it is more than a window old. */
  function PruneFront(q: seq<int>, now: int): (r: seq<int>)
    ensures |r| <= |q| && r == q[|q| - |r|..]
    ensures r == [] || now - r[0] <= Window
    ensures forall i :: 0 <= i < |q| - |r| ==> now - q[i] > Window
  {
    if q != [] && now - q[0] > Window then PruneFront(q[1..], now) else q
  }

  predicate Ascending(q: seq<int>) {
    forall i, j :: 0 <= i < j < |q| ==> q[i] <= q[j]
  }

  /** On a queue in arrival order the front-only prune is exact: a time
      stays iff it is at most a window old, so one exactly a window old
      stays. */
  lemma {:induction false} PruneExact(q: seq<int>, now: int)
    requires Ascending(q)
    ensures forall t :: t in PruneFront(q, now) <==> t in q && now - t <= Window
  {
    var r := PruneFront(q, now);
    var d := |q| - |r|;
    assert forall i :: 0 <= i < |r| ==> r[i] == q[d + i];
    forall t | t in r ensures t in q && now - t <= Window {
      var k :| 0 <= k < |r| && r[k] == t;
      assert r[0] == q[d] && r[k] == q[d + k];
      assert q[d] <= q[d + k];
    }
    forall t | t in q && now - t <= Window ensures t in r {
      var k :| 0 <= k < |q| && q[k] == t;
      assert now - q[k] <= Window;
      assert k >= d;
      assert r[k - d] == q[k];
    }
  }

  /** The response to one request. */
  datatype Outcome =
    | Allowed(remaining: int, reset: int)  // X-RateLimit-Remaining and X-RateLimit-Reset
    | Limited                              // 429 with Retry-After: 60

  /** One request from an IP whose queue is `q`: the queue after it, and
      the response. */
  function Step(q: seq<int>, now: int, limit: int): (seq<int>, Outcome) {
    var p := PruneFront(q, now);
    if |p| >= limit then (p, Limited)
    else (p + [now], Allowed(Max(0, limit - (|p| + 1)), now + Window))
  }

  /** A request is refused exactly when the pruned queue already holds
      `limit` times, and then nothing is appended; an allowed request
      appends exactly now, and the remaining count is never negative and is
      what is left of the limit. */
  lemma StepOutcome(q: seq<int>, now: int, limit: int)
    ensures var (q', o) := Step(q, now, limit);
      && (o.Limited? <==> |PruneFront(q, now)| >= limit)
      && (o.Limited? ==> q' == PruneFront(q, now))
      && (o.Allowed? ==>
            && q' == PruneFront(q, now) + [now]
            && o.remaining >= 0 && o.remaining == limit - |q'|
            && o.reset == now + 60)
  {
  }

  /** A queue never grows past the limit. */
  lemma StepBounded(q: seq<int>, now: int, limit: int)
    requires |q| <= Max(0, limit)
    ensures |Step(q, now, limit).0| <= Max(0, limit)
  {
  }

  /** Appending only at the back, at a time no earlier than any queued
      one, keeps the queue in arrival order. */
  lemma StepAscending(q: seq<int>, now: int, limit: int)
    requires Ascending(q) && forall i :: 0 <= i < |q| ==> q[i] <= now
    ensures Ascending(Step(q, now, limit).0)
    ensures forall i :: 0 <= i < |Step(q, now, limit).0| ==> Step(q, now, limit).0[i] <= now
  {
  }

  /** The per-IP queues after a request from `ip`: a defaultdict lookup
      creates the IP's queue even when the request is refused. */
  function Handle(requests: map<string, seq<int>>, ip: string, now: int, limit: int): (map<string, seq<int>>, Outcome) {
    var q := if ip in requests then requests[ip] else [];
    var (q', o) := Step(q, now, limit);
    (requests[ip := q'], o)
  }

  /** Only the requesting IP's queue changes. */
  lemma HandleIsolatesIps(requests: map<string, seq<int>>, ip: string, now: int, limit: int, other: string)
    requires other != ip
    ensures var after := Handle(requests, ip, now, limit).0;
      && (other in after <==> other in requests)
      && (other in requests ==> after[other] == requests[other])
      && ip in after
  {
  }

  /** With requests in arrival order, an allowed request leaves at most
      `limit` times in the last window, the new one included. */
  lemma AllowedWithinWindow(q: seq<int>, now: int, limit: int)
    requires Ascending(q) && forall i :: 0 <= i < |q| ==> q[i] <= now
    requires Step(q, now, limit).1.Allowed?
    ensures |Step(q, now, limit).0| <= limit
    ensures forall t :: t in Step(q, now, limit).0 <==> t == now || (t in q && now - t <= Window)
  {
    PruneExact(q, now);
  }

  class RateLimiter {
    const limit: int
    var requests: map<string, seq<int>>

    constructor (limit: int)
      ensures this.limit == limit && requests == map[]
    {
      this.limit := limit;
      requests := map[];
    }

    function Queue(ip: string): seq<int>
      reads this
    {
      if ip in requests then requests[ip] else []
    }

    /** RateLimitMiddleware.dispatch, up to the response headers. */
    method Dispatch(ip: string, now: int) returns (outcome: Outcome)
      modifies this
      ensures (requests, outcome) == Handle(old(requests), ip, now, limit)
    {
      var q := Queue(ip);
      ghost var q0 := q;
      while q != [] && now - q[0] > Window
        invariant PruneFront(q, now) == PruneFront(q0, now)
        decreases |q|
      {
        q := q[1..];
      }
      if |q| >= limit {
        requests := requests[ip := q];
        return Limited;
      }
      q := q + [now];
      requests := requests[ip := q];
      outcome := Allowed(Max(0, limit - |requests[ip]|), now + Window);
    }
  }

  /** get_client_ip: the first comma-separated element of a non-empty
      X-Forwarded-For, stripped; else a non-empty X-Real-IP; else the
      connection's host; else "unknown". */
  function ClientIp(forwardedFor: Option<string>, realIp: Option<string>, clientHost: Option<string>): (ip: string)
    ensures Truthy(forwardedFor) ==> ip == Strip(BeforeFirst(forwardedFor.value, ','))
    ensures Truthy(forwardedFor) ==> ',' !in ip && (ip == [] || (!IsSpace(ip[0]) && !IsSpace(ip[|ip| - 1])))
    ensures !Truthy(forwardedFor) && Truthy(realIp) ==> ip == realIp.value
    ensures !Truthy(forwardedFor) && !Truthy(realIp) ==> ip == if clientHost.Some? then clientHost.value else "unknown"
  {
    if Truthy(forwardedFor) then
      var first := BeforeFirst(forwardedFor.value, ',');
      StripKeeps(first, ',');
      Strip(first)
    else if Truthy(realIp) then realIp.value
    else if clientHost.Some? then clientHost.value
    else "unknown"
  }

  lemma StripKeeps(s: string, c: char)
    requires c !in s
    ensures c !in Strip(s)
  {
    var r := Strip(s);
    var i := LeadingSpaces(s);
    assert forall k :: 0 <= k < |r| ==> r[k] == s[i + k];
  }

  /** The first proxy in the list is the client; a blank first element is
      not skipped. */
  lemma ForwardedFirstElement(first: string, rest: string, realIp: Option<string>, clientHost: Option<string>)
    requires ',' !in first
    ensures ClientIp(Some(first + "," + rest), realIp, clientHost) == Strip(first)
    ensures ClientIp(Some(", 10.0.0.1"), realIp, clientHost) == ""
  {
    BeforeFirstOfJoin(first, ',', rest);
    assert first + "," + rest == first + [','] + rest;
    BlankFirstElement(realIp, clientHost);
  }

  /** A single address, the usual X-Forwarded-For of one proxy, is the
      client's IP once stripped of surrounding whitespace. */
  lemma SingleForwardedAddress(h: string, realIp: Option<string>, clientHost: Option<string>)
    requires h != "" && ',' !in h
    ensures ClientIp(Some(h), realIp, clientHost) == Strip(h)
  {
    var r := BeforeFirst(h, ',');
    assert |r| == |h|;
    assert r == h;
  }

  lemma BlankFirstElement(realIp: Option<string>, clientHost: Option<string>)
    ensures ClientIp(Some(", 10.0.0.1"), realIp, clientHost) == ""
  {
    BeforeFirstOfJoin("", ',', " 10.0.0.1");
    assert "" + [','] + " 10.0.0.1" == ", 10.0.0.1";
    assert Strip("") == "";
  }
}
