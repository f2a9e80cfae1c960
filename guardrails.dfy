/** The backend's request guardrails: a size cap on the declared body length
    and a per-client limit of `requestsPerMinute` requests in any 60-second
    window. `now` is the clock reading of the request; handing the request
    on to the application is the `Forwarded` decision. */
module Guardrails {
  import opened Json
  import opened SlidingWindow

  /** The parts of a request the middleware reads: the client's host when
      the connection has a client, and the `content-length` header when
      present. */
  datatype Request = Request(client: Option<string>, contentLength: Option<string>)

  /** `Malformed` is the `ValueError` of `int()` on a header that is not a
      number, which propagates out of the middleware. */
  datatype Decision = Forwarded | TooLarge | RateLimited | Malformed

  /** The HTTP status of a refusal. */
  function Status(d: Decision): (code: int)
    requires d.TooLarge? || d.RateLimited?
    ensures code == 413 <==> d.TooLarge?
    ensures code == 429 <==> d.RateLimited?
  {
    if d.TooLarge? then 413 else 429
  }

  /** The key of the client's window. */
  function ClientKey(client: Option<string>): string {
    if client.Some? then client.value else "unknown"
  }

  /** The refusal of the size check, if any: `int()` fails on a header
      that is not a number, and a declared size above the cap gets 413. An
      absent or empty header passes. */
  function SizeRefusal(req: Request, maxRequestSize: int, parseInt: string -> Option<int>): (r: Option<Decision>)
    ensures r.Some? ==> r.value.Malformed? || r.value.TooLarge?
  {
    if req.contentLength.Some? && req.contentLength.value != "" then
      var size := parseInt(req.contentLength.value);
      if size.None? then Some(Malformed)
      else if size.value > maxRequestSize then Some(TooLarge)
      else None
    else None
  }

  /** The client's window as `setdefault` finds it. */
  function WindowOf(times: map<string, seq<real>>, ip: string): seq<real> {
    if ip in times then times[ip] else []
  }

  /** A window never longer than the per-minute limit (none at all for a
      limit of zero or less). */
  predicate Bounded(times: map<string, seq<real>>, requestsPerMinute: int) {
    forall ip :: ip in times ==> |times[ip]| <= requestsPerMinute || |times[ip]| == 0
  }

  /** The decision on one request. */
  function Decide(times: map<string, seq<real>>, maxRequestSize: int, requestsPerMinute: int,
                  req: Request, now: real, parseInt: string -> Option<int>): Decision
  {
    var refusal := SizeRefusal(req, maxRequestSize, parseInt);
    if refusal.Some? then refusal.value
    else if |Purge(WindowOf(times, ClientKey(req.client)), now)| >= requestsPerMinute then RateLimited
    else Forwarded
  }

  /** The windows after one request: untouched when the size check refuses
      it; otherwise the client's window purged, plus `now` when forwarded. */
  function WindowsAfter(times: map<string, seq<real>>, maxRequestSize: int, requestsPerMinute: int,
                        req: Request, now: real, parseInt: string -> Option<int>): map<string, seq<real>>
  {
    var ip := ClientKey(req.client);
    var kept := Purge(WindowOf(times, ip), now);
    if SizeRefusal(req, maxRequestSize, parseInt).Some? then times
    else if |kept| >= requestsPerMinute then times[ip := kept]
    else times[ip := kept + [now]]
  }

  class GuardrailsMiddleware {
    const maxRequestSize: int
    const requestsPerMinute: int
    var requestTimes: map<string, seq<real>>

    constructor (maxRequestSize: int, requestsPerMinute: int)
      ensures this.maxRequestSize == maxRequestSize && this.requestsPerMinute == requestsPerMinute
      ensures requestTimes == map[]
    {
      this.maxRequestSize := maxRequestSize;
      this.requestsPerMinute := requestsPerMinute;
      requestTimes := map[];
    }

    /** `dispatch`. */
    method Dispatch(req: Request, now: real, parseInt: string -> Option<int>) returns (d: Decision)
      modifies this
      ensures d == Decide(old(requestTimes), maxRequestSize, requestsPerMinute, req, now, parseInt)
      ensures requestTimes == WindowsAfter(old(requestTimes), maxRequestSize, requestsPerMinute, req, now, parseInt)
    {
      var ip := ClientKey(req.client);
      if req.contentLength.Some? && req.contentLength.value != "" {
        var size := parseInt(req.contentLength.value);
        if size.None? {
          return Malformed;
        }
        if size.value > maxRequestSize {
          return TooLarge;
        }
      }
      var current := if ip in requestTimes then requestTimes[ip] else [];
      var window := DropExpired(current, now);
      requestTimes := requestTimes[ip := window];
      if |window| >= requestsPerMinute {
        return RateLimited;
      }
      requestTimes := requestTimes[ip := window + [now]];
      return Forwarded;
    }
  }

  /** A request declaring more than the size cap is refused with 413 before
      any window is looked at. */
  lemma OversizeUntouched(times: map<string, seq<real>>, maxRequestSize: int, requestsPerMinute: int,
                          req: Request, now: real, parseInt: string -> Option<int>, size: int)
    requires req.contentLength.Some? && req.contentLength.value != ""
    requires parseInt(req.contentLength.value) == Some(size) && size > maxRequestSize
    ensures Decide(times, maxRequestSize, requestsPerMinute, req, now, parseInt) == TooLarge
    ensures Status(TooLarge) == 413
    ensures WindowsAfter(times, maxRequestSize, requestsPerMinute, req, now, parseInt) == times
  {
  }

  /** A request refused for its rate records nothing: the client's window
      is only purged, and it is already full. A forwarded one records `now`
      after the surviving stamps. */
  lemma RateDecision(times: map<string, seq<real>>, maxRequestSize: int, requestsPerMinute: int,
                     req: Request, now: real, parseInt: string -> Option<int>)
    ensures var d := Decide(times, maxRequestSize, requestsPerMinute, req, now, parseInt);
            var after := WindowsAfter(times, maxRequestSize, requestsPerMinute, req, now, parseInt);
            var ip := ClientKey(req.client);
            var kept := Purge(WindowOf(times, ip), now);
            && (d.RateLimited? ==> after == times[ip := kept] && |kept| >= requestsPerMinute && Status(d) == 429)
            && (d.Forwarded? ==> after == times[ip := kept + [now]] && |kept| < requestsPerMinute)
            && (d.Forwarded? || d.RateLimited? <==> SizeRefusal(req, maxRequestSize, parseInt).None?)
  {
  }

  /** No window ever grows past the limit. */
  lemma DispatchKeepsBound(times: map<string, seq<real>>, maxRequestSize: int, requestsPerMinute: int,
                           req: Request, now: real, parseInt: string -> Option<int>)
    requires Bounded(times, requestsPerMinute)
    ensures Bounded(WindowsAfter(times, maxRequestSize, requestsPerMinute, req, now, parseInt), requestsPerMinute)
  {
    var after := WindowsAfter(times, maxRequestSize, requestsPerMinute, req, now, parseInt);
    if SizeRefusal(req, maxRequestSize, parseInt).None? {
      var key := ClientKey(req.client);
      var current := WindowOf(times, key);
      var kept := Purge(current, now);
      assert |current| <= requestsPerMinute || |current| == 0;
      var v := if |kept| >= requestsPerMinute then kept else kept + [now];
      assert after == times[key := v];
      assert |v| <= requestsPerMinute || |v| == 0;
      forall ip | ip in after
        ensures |after[ip]| <= requestsPerMinute || |after[ip]| == 0
      {
        if ip != key {
          assert after[ip] == times[ip];
        }
      }
    }
  }

  /** Only the requesting client's window changes. */
  lemma OtherClientsUntouched(times: map<string, seq<real>>, maxRequestSize: int, requestsPerMinute: int,
                              req: Request, now: real, parseInt: string -> Option<int>, other: string)
    requires other != ClientKey(req.client)
    ensures var after := WindowsAfter(times, maxRequestSize, requestsPerMinute, req, now, parseInt);
            (other in after <==> other in times) && (other in times ==> after[other] == times[other])
  {
  }

  /** With a limit of two, a client's third request within a minute is
      refused, and a connection without a client is counted as "unknown". */
  lemma ThirdRequestRefused(maxRequestSize: int, t: real, parseInt: string -> Option<int>)
    ensures var req := Request(None, None);
            var none: map<string, seq<real>> := map[];
            var once := WindowsAfter(none, maxRequestSize, 2, req, t, parseInt);
            var twice := WindowsAfter(once, maxRequestSize, 2, req, t, parseInt);
            && Decide(none, maxRequestSize, 2, req, t, parseInt) == Forwarded
            && Decide(once, maxRequestSize, 2, req, t, parseInt) == Forwarded
            && Decide(twice, maxRequestSize, 2, req, t, parseInt) == RateLimited
            && twice == map["unknown" := [t, t]]
            && WindowsAfter(twice, maxRequestSize, 2, req, t, parseInt) == twice
  {
    var req := Request(None, None);
    var none: map<string, seq<real>> := map[];
    assert ClientKey(req.client) == "unknown" && SizeRefusal(req, maxRequestSize, parseInt).None?;
    assert WindowOf(none, "unknown") == [] && Purge([], t) == [] && [] + [t] == [t];
    var once := WindowsAfter(none, maxRequestSize, 2, req, t, parseInt);
    assert once == none["unknown" := [t]];
    assert once == map["unknown" := [t]];
    assert WindowOf(once, "unknown") == [t] && Purge([t], t) == [t] && [t] + [t] == [t, t];
    var twice := WindowsAfter(once, maxRequestSize, 2, req, t, parseInt);
    assert twice == once["unknown" := [t, t]];
    assert twice == map["unknown" := [t, t]];
    assert WindowOf(twice, "unknown") == [t, t] && Purge([t, t], t) == [t, t];
    assert twice["unknown" := [t, t]] == twice;
  }
}
