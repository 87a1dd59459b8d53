/**
 * The per-client throttle in front of the `/generate` endpoint: a fixed-window
 * request counter kept in a key-value namespace under `rate-limit:<identity>`.
 *
 * Pure parts (which requests are protected, who the client is, what the
 * counter decides) are functions; the handler that reads, updates and writes
 * the stored record is a method of `RateLimitGate`, whose `kv` field is the
 * namespace.
 */
module RateLimit {
  import opened Optional

  const Limit: int := 100                  // requests per window
  const WindowMs: int := 60 * 60 * 1000    // one hour
  const RecordTtlSeconds: int := 65 * 60   // expiry given to every stored record
  const KeyPrefix: string := "rate-limit:"
  const UnknownClient: string := "unknown"

  /** The parts of an incoming request the throttle looks at. A header is `None` when absent. */
  datatype Request = Request(
    httpMethod: string,
    pathname: string,
    cfConnectingIp: Option<string>,
    xForwardedFor: Option<string>)

  /** The stored JSON record; `lastRequestTime` is absent until the first admission. */
  datatype Record = Record(
    count: int,
    firstRequestTime: int,
    lastResetTime: int,
    clientIP: string,
    lastRequestTime: Option<int>)

  /** A value in the namespace together with the expiry (in seconds) it was written with. */
  datatype Entry = Entry(data: Record, ttl: int)

  /** What the counter decides for one protected request. */
  datatype Decision =
    | Deny(retryAfter: int, reset: int)
    | Allow(record: Record, remaining: int, reset: int)

  /** The `X-RateLimit-*` header values; `reset` is the epoch-millisecond instant the ISO string is made from. */
  datatype QuotaHeaders = QuotaHeaders(limit: int, remaining: int, reset: int)

  /** What the worker answers: the origin's response untouched, with quota headers, or a 429. */
  datatype GateResponse =
    | PassedThrough                                        // not a protected request
    | FailedOpen                                           // something threw: forwarded without headers
    | TooManyRequests(retryAfter: int, quota: QuotaHeaders) // 429; retryAfter is both the body field and Retry-After
    | Forwarded(quota: QuotaHeaders)                       // admitted, origin response with headers added

  /** One call issued to the namespace, for stating which paths read or write it. */
  datatype KvCall = Get(key: string) | Put(key: string)

  /** Which namespace call throws, if any. */
  datatype KvFault = NoFault | GetFails | PutFails

  predicate StartsWith(s: string, prefix: string) {
    |prefix| <= |s| && s[..|prefix|] == prefix
  }

  /**
   * Only POST requests to a path beginning with `/generate` are throttled;
   * every other method, and every other path, passes through.
   */
  predicate IsProtected(req: Request)
    ensures IsProtected(req) <==>
      req.httpMethod == "POST" && |req.pathname| >= 9 &&
      forall i :: 0 <= i < 9 ==> req.pathname[i] == "/generate"[i]
    ensures req.httpMethod != "POST" ==> !IsProtected(req)
  {
    req.httpMethod == "POST" && StartsWith(req.pathname, "/generate")
  }

  /** `s.split(',')[0]`: the text before the first comma, or all of `s` when it has none. */
  function FirstCommaSegment(s: string): (r: string)
    ensures StartsWith(s, r)
    ensures ',' !in r
    ensures |r| < |s| ==> s[|r|] == ','
  {
    if s == [] || s[0] == ',' then [] else [s[0]] + FirstCommaSegment(s[1..])
  }

  /**
   * The client identity: `CF-Connecting-IP` when non-empty, else the first
   * comma segment of `X-Forwarded-For` when non-empty, else "unknown"
   * (an empty string is falsy and falls through).
   */
  function ClientIdentity(req: Request): (id: string)
    ensures id != []
    ensures req.cfConnectingIp.Some? && req.cfConnectingIp.value != [] ==> id == req.cfConnectingIp.value
    ensures (req.cfConnectingIp.None? || req.cfConnectingIp.value == []) ==>
      if req.xForwardedFor.Some? && req.xForwardedFor.value != [] && req.xForwardedFor.value[0] != ','
      then ',' !in id && StartsWith(req.xForwardedFor.value, id)
        && (|id| == |req.xForwardedFor.value| || req.xForwardedFor.value[|id|] == ',')
      else id == UnknownClient
  {
    if req.cfConnectingIp.Some? && req.cfConnectingIp.value != [] then req.cfConnectingIp.value
    else if req.xForwardedFor.Some? && FirstCommaSegment(req.xForwardedFor.value) != [] then
      FirstCommaSegment(req.xForwardedFor.value)
    else UnknownClient
  }

  function RateLimitKey(id: string): string {
    KeyPrefix + id
  }

  /** Distinct identities never share a counter. */
  lemma RateLimitKeyInjective(a: string, b: string)
    requires RateLimitKey(a) == RateLimitKey(b)
    ensures a == b
  {
    assert a == RateLimitKey(a)[|KeyPrefix|..];
    assert b == RateLimitKey(b)[|KeyPrefix|..];
  }

  /** `Math.ceil(x / d)` for an integer `x` and a positive divisor. */
  function CeilDiv(x: int, d: int): (q: int)
    requires d > 0
    ensures (q - 1) * d < x <= q * d
  {
    (x + d - 1) / d
  }

  /** The record after the initialise-or-reset step, before the limit check. */
  function WindowRecord(stored: Option<Record>, ip: string, now: int): (w: Record)
    ensures w.firstRequestTime >= now - WindowMs
    ensures stored.None? ==> w == Record(0, now, now, ip, None)
    ensures stored.Some? && stored.value.firstRequestTime >= now - WindowMs ==> w == stored.value
    ensures stored.Some? && stored.value.firstRequestTime < now - WindowMs ==>
      w == stored.value.(count := 0, firstRequestTime := now)
  {
    var r := if stored.Some? then stored.value else Record(0, now, now, ip, None);
    if r.firstRequestTime < now - WindowMs then r.(count := 0, firstRequestTime := now) else r
  }

  /**
   * The decision for one protected request given what the namespace holds
   * for its key: reject when the window's count has reached the limit,
   * otherwise count the request.
   */
  function Decide(stored: Option<Record>, ip: string, now: int): (d: Decision)
    ensures var w := WindowRecord(stored, ip, now);
      && d.reset == w.firstRequestTime + WindowMs
      && (d.Deny? <==> w.count >= Limit)
      && (d.Deny? ==> d.retryAfter == CeilDiv(w.firstRequestTime + WindowMs - now, 1000))
      && (d.Allow? ==> d.record == w.(count := w.count + 1, lastRequestTime := Some(now)))
    ensures d.Allow? ==> d.record.count <= Limit && d.remaining == Limit - d.record.count >= 0
    ensures d.Deny? && (stored.None? || stored.value.firstRequestTime <= now) ==>
      0 <= d.retryAfter <= WindowMs / 1000
  {
    var w := WindowRecord(stored, ip, now);
    var reset := w.firstRequestTime + WindowMs;
    if w.count >= Limit then
      Deny(CeilDiv(reset - now, 1000), reset)
    else
      var r := w.(count := w.count + 1, lastRequestTime := Some(now));
      Allow(r, Max(0, Limit - r.count), reset)
  }

  function Max(a: int, b: int): int {
    if a < b then b else a
  }

  /** At exactly one window after the first request there is no reset, and a full window asks for a zero-second wait. */
  lemma RetryAfterZeroAtBoundary(rec: Record, ip: string, now: int)
    requires rec.firstRequestTime == now - WindowMs && rec.count >= Limit
    ensures Decide(Some(rec), ip, now) == Deny(0, now)
  {
  }

  /** One millisecond later the window has passed and the client is admitted as the first of a new window. */
  lemma ReadmittedAfterWindow(rec: Record, ip: string, now: int)
    requires rec.firstRequestTime < now - WindowMs
    ensures var d := Decide(Some(rec), ip, now);
      d.Allow? && d.record.count == 1 && d.record.firstRequestTime == now && d.remaining == Limit - 1
  {
  }

  /** Decisions for successive requests of one client, feeding each admitted record back as the stored one. */
  function Replay(stored: Option<Record>, ip: string, times: seq<int>): (ds: seq<Decision>)
    ensures |ds| == |times|
    decreases |times|
  {
    if times == [] then []
    else
      var d := Decide(stored, ip, times[0]);
      [d] + Replay(if d.Allow? then Some(d.record) else stored, ip, times[1..])
  }

  /** The record the namespace holds for the client once `Replay` has run: the last one admitted, else `stored`. */
  function ReplayStored(stored: Option<Record>, ip: string, times: seq<int>): (r: Option<Record>)
    ensures r.Some? <==> stored.Some? || times != []
    decreases |times|
  {
    if times == [] then stored
    else
      var d := Decide(stored, ip, times[0]);
      ReplayStored(if d.Allow? then Some(d.record) else stored, ip, times[1..])
  }

  /** The namespace calls `Replay` issues under `key`: a get for every request, and a put after each admission. */
  function ReplayCalls(stored: Option<Record>, key: string, ip: string, times: seq<int>): (cs: seq<KvCall>)
    ensures |times| <= |cs| <= 2 * |times|
    decreases |times|
  {
    if times == [] then []
    else
      var d := Decide(stored, ip, times[0]);
      (if d.Allow? then [Get(key), Put(key)] else [Get(key)])
        + ReplayCalls(if d.Allow? then Some(d.record) else stored, key, ip, times[1..])
  }

  /**
   * Partway through a run: the requests before `i` were decided as `ds` and
   * issued `log`, and the rest of the run from `stored` completes the whole
   * run's decisions `run`, final record `last` and calls `runCalls`.
   */
  ghost predicate ReplayProgress(stored: Option<Record>, key: string, ip: string, times: seq<int>, i: nat,
                                 ds: seq<Decision>, log: seq<KvCall>,
                                 run: seq<Decision>, last: Option<Record>, runCalls: seq<KvCall>)
    requires i <= |times|
  {
    && ds + Replay(stored, ip, times[i..]) == run
    && ReplayStored(stored, ip, times[i..]) == last
    && log + ReplayCalls(stored, key, ip, times[i..]) == runCalls
  }

  /**
   * Request `i` of a run, decided as `d` and issuing `issued`, moves the run
   * on by one: to request `i'`, with the record `next` stored, decisions
   * `ds'` and calls `log'`.
   */
  lemma ReplayAdvance(stored: Option<Record>, key: string, ip: string, times: seq<int>, i: nat,
                      ds: seq<Decision>, log: seq<KvCall>, d: Decision, issued: seq<KvCall>,
                      next: Option<Record>, i': nat, ds': seq<Decision>, log': seq<KvCall>,
                      run: seq<Decision>, last: Option<Record>, runCalls: seq<KvCall>)
    requires i < |times|
    requires ReplayProgress(stored, key, ip, times, i, ds, log, run, last, runCalls)
    requires d == Decide(stored, ip, times[i])
    requires issued == if d.Allow? then [Get(key), Put(key)] else [Get(key)]
    requires next == if d.Allow? then Some(d.record) else stored
    requires i' == i + 1 && ds' == ds + [d] && log' == log + issued
    ensures ReplayProgress(next, key, ip, times, i', ds', log', run, last, runCalls)
  {
  }

  /** When the last request of a run is admitted, its record is the one left stored. */
  lemma {:induction false} ReplayStoresLastAdmitted(stored: Option<Record>, ip: string, times: seq<int>)
    requires times != []
    requires Replay(stored, ip, times)[|times| - 1].Allow?
    ensures ReplayStored(stored, ip, times) == Some(Replay(stored, ip, times)[|times| - 1].record)
    decreases |times|
  {
    var d := Decide(stored, ip, times[0]);
    var next := if d.Allow? then Some(d.record) else stored;
    if |times| > 1 {
      assert Replay(stored, ip, times)[|times| - 1] == Replay(next, ip, times[1..])[|times| - 2];
      ReplayStoresLastAdmitted(next, ip, times[1..]);
    }
  }

  /**
   * While no request comes more than an hour after the start of the window
   * held in `rec` (earlier timestamps included), the client is admitted until
   * the count reaches the limit, with `remaining` counting down, and
   * rejected from then on.
   */
  lemma {:induction false} ReplayWithinWindow(rec: Record, ip: string, times: seq<int>)
    requires 0 <= rec.count <= Limit
    requires forall i :: 0 <= i < |times| ==> times[i] <= rec.firstRequestTime + WindowMs
    ensures var ds := Replay(Some(rec), ip, times);
      forall i :: 0 <= i < |ds| ==>
        if rec.count + i < Limit then ds[i].Allow? && ds[i].remaining == Limit - rec.count - i - 1
        else ds[i].Deny?
    decreases |times|
  {
    if times != [] {
      var d := Decide(Some(rec), ip, times[0]);
      var next := if d.Allow? then d.record else rec;
      ReplayWithinWindow(next, ip, times[1..]);
      var ds := Replay(Some(rec), ip, times);
      assert ds == [d] + Replay(Some(next), ip, times[1..]);
      forall i | 0 <= i < |ds|
        ensures if rec.count + i < Limit then ds[i].Allow? && ds[i].remaining == Limit - rec.count - i - 1
                else ds[i].Deny?
      {
        if i > 0 {
          assert ds[i] == Replay(Some(next), ip, times[1..])[i - 1];
        }
      }
    }
  }

  /**
   * A new client's first `Limit` requests are all admitted, `remaining`
   * falling from 99 to 0, and every later one is rejected, as long as none
   * comes more than an hour after the first.
   */
  lemma {:induction false} FirstWindowAdmitsLimitThenRejects(ip: string, times: seq<int>)
    requires |times| > 0
    requires forall i :: 0 <= i < |times| ==> times[i] <= times[0] + WindowMs
    ensures var ds := Replay(None, ip, times);
      forall i :: 0 <= i < |ds| ==>
        if i < Limit then ds[i].Allow? && ds[i].remaining == Limit - 1 - i else ds[i].Deny?
  {
    var d := Decide(None, ip, times[0]);
    ReplayWithinWindow(d.record, ip, times[1..]);
    var ds := Replay(None, ip, times);
    assert ds == [d] + Replay(Some(d.record), ip, times[1..]);
    forall i | 0 <= i < |ds|
      ensures if i < Limit then ds[i].Allow? && ds[i].remaining == Limit - 1 - i else ds[i].Deny?
    {
      if i > 0 {
        assert ds[i] == Replay(Some(d.record), ip, times[1..])[i - 1];
      }
    }
  }

  function Lookup(kv: map<string, Entry>, key: string): Option<Record> {
    if key in kv then Some(kv[key].data) else None
  }

  /** The rate-limit worker with its key-value namespace. */
  class RateLimitGate {
    var kv: map<string, Entry>
    ghost var calls: seq<KvCall>   // every call this worker has issued to the namespace

    /**
     * What the handler keeps true of the namespace: each record sits under the
     * key of the client it was created for, counts between 1 and the limit,
     * and was written with the 65-minute expiry.
     */
    ghost predicate Valid()
      reads this
    {
      forall k :: k in kv ==>
        && 1 <= kv[k].data.count <= Limit
        && kv[k].ttl == RecordTtlSeconds
        && k == RateLimitKey(kv[k].data.clientIP)
    }

    constructor ()
      ensures kv == map[] && calls == [] && Valid()
    {
      kv := map[];
      calls := [];
    }

    /**
     * The read-modify-write for one protected request from `ip` at `now`.
     * `None` means a namespace call threw; the caller then fails open.
     */
    method Admit(ip: string, now: int, fault: KvFault) returns (d: Option<Decision>)
      modifies this
      ensures var key := RateLimitKey(ip);
        var spec := Decide(Lookup(old(kv), key), ip, now);
        && (fault == GetFails ==> d == None && kv == old(kv) && calls == old(calls) + [Get(key)])
        && (fault != GetFails && spec.Deny? ==> d == Some(spec) && kv == old(kv) && calls == old(calls) + [Get(key)])
        && (fault == PutFails && spec.Allow? ==>
              d == None && kv == old(kv) && calls == old(calls) + [Get(key), Put(key)])
        && (fault == NoFault && spec.Allow? ==>
              && d == Some(spec)
              && kv == old(kv)[key := Entry(spec.record, RecordTtlSeconds)]
              && calls == old(calls) + [Get(key), Put(key)])
      ensures old(Valid()) ==> Valid()
    {
      var key := RateLimitKey(ip);
      calls := calls + [Get(key)];
      if fault == GetFails {
        return None;
      }
      var data: Record;
      if key in kv {
        data := kv[key].data;
      } else {
        data := Record(0, now, now, ip, None);
      }
      if data.firstRequestTime < now - WindowMs {
        data := data.(count := 0);
        data := data.(firstRequestTime := now);
      }
      if data.count >= Limit {
        var retryAfter := CeilDiv(data.firstRequestTime + WindowMs - now, 1000);
        return Some(Deny(retryAfter, data.firstRequestTime + WindowMs));
      }
      data := data.(count := data.count + 1);
      data := data.(lastRequestTime := Some(now));
      calls := calls + [Put(key)];
      if fault == PutFails {
        return None;
      }
      kv := kv[key := Entry(data, RecordTtlSeconds)];
      d := Some(Allow(data, Max(0, Limit - data.count), data.firstRequestTime + WindowMs));
    }

    /**
     * One client's protected requests handled one after another, none of
     * them hitting a namespace failure: the decisions are those of `Replay`
     * from what the namespace held, so `ReplayWithinWindow` and
     * `FirstWindowAdmitsLimitThenRejects` describe the handler itself.
     */
    method AdmitInTurn(ip: string, times: seq<int>) returns (ds: seq<Decision>)
      modifies this
      ensures ds == Replay(Lookup(old(kv), RateLimitKey(ip)), ip, times)
      ensures Lookup(kv, RateLimitKey(ip)) == ReplayStored(Lookup(old(kv), RateLimitKey(ip)), ip, times)
      ensures forall k :: k != RateLimitKey(ip) ==> (k in kv <==> k in old(kv)) && (k in kv ==> kv[k] == old(kv)[k])
      ensures calls == old(calls) + ReplayCalls(Lookup(old(kv), RateLimitKey(ip)), RateLimitKey(ip), ip, times)
      ensures old(Valid()) ==> Valid()
    {
      var key := RateLimitKey(ip);
      ghost var start := Lookup(kv, key);
      ghost var stored := start;
      ghost var run := Replay(start, ip, times);
      ghost var last := ReplayStored(start, ip, times);
      ghost var runCalls := old(calls) + ReplayCalls(start, key, ip, times);
      ds := [];
      var i := 0;
      while i < |times|
        invariant 0 <= i <= |times|
        invariant stored == Lookup(kv, key)
        invariant ReplayProgress(stored, key, ip, times, i, ds, calls, run, last, runCalls)
        invariant forall k :: k != key ==> (k in kv <==> k in old(kv)) && (k in kv ==> kv[k] == old(kv)[k])
        invariant old(Valid()) ==> Valid()
      {
        ghost var before, prev, prevDs := calls, stored, ds;
        var d := Admit(ip, times[i], NoFault);
        ghost var spec := Decide(stored, ip, times[i]);
        assert d == Some(spec);
        ghost var issued := if spec.Allow? then [Get(key), Put(key)] else [Get(key)];
        assert calls == before + issued;
        ds := ds + [d.value];
        stored := if spec.Allow? then Some(spec.record) else stored;
        assert stored == Lookup(kv, key);
        i := i + 1;
        ReplayAdvance(prev, key, ip, times, i - 1, prevDs, before, d.value, issued, stored, i, ds, calls, run, last, runCalls);
      }
      assert times[i..] == [];
      assert ReplayProgress(stored, key, ip, times, i, ds, calls, run, last, runCalls);
    }

    /**
     * The worker's fetch handler. Unprotected requests are forwarded without
     * touching the namespace; a throw anywhere (namespace or origin) forwards
     * the request without quota headers.
     */
    method Fetch(req: Request, now: int, fault: KvFault, originFails: bool) returns (resp: GateResponse)
      modifies this
      ensures !IsProtected(req) ==> resp == PassedThrough && kv == old(kv) && calls == old(calls)
      ensures IsProtected(req) ==>
        var key := RateLimitKey(ClientIdentity(req));
        var spec := Decide(Lookup(old(kv), key), ClientIdentity(req), now);
        && (fault == GetFails ==> resp == FailedOpen && kv == old(kv))
        && (fault != GetFails && spec.Deny? ==>
              resp == TooManyRequests(spec.retryAfter, QuotaHeaders(Limit, 0, spec.reset)) && kv == old(kv))
        && (fault == PutFails && spec.Allow? ==> resp == FailedOpen && kv == old(kv))
        && (fault == NoFault && spec.Allow? ==>
              && kv == old(kv)[key := Entry(spec.record, RecordTtlSeconds)]
              && resp == if originFails then FailedOpen else Forwarded(QuotaHeaders(Limit, spec.remaining, spec.reset)))
      ensures old(Valid()) ==> Valid()
    {
      if !IsProtected(req) {
        return PassedThrough;
      }
      var ip := ClientIdentity(req);
      var d := Admit(ip, now, fault);
      match d {
        case None =>
          resp := FailedOpen;
        case Some(Deny(retryAfter, reset)) =>
          resp := TooManyRequests(retryAfter, QuotaHeaders(Limit, 0, reset));
        case Some(Allow(_, remaining, reset)) =>
          resp := if originFails then FailedOpen else Forwarded(QuotaHeaders(Limit, remaining, reset));
      }
    }
  }
}
