/** What the request handler promises, stated over the per-request functions of `Dispatch`. */
module DispatchProperties {
  import opened Strings
  import opened Endpoints
  import opened RateLimiter
  import opened Dispatch
  import Configuration

  function Min(a: int, b: int): int { if a <= b then a else b }
  function Max(a: int, b: int): int { if a >= b then a else b }

  // ---------- one request ----------

  /** A client at or above the cap gets 429 before any route lookup, and nothing changes. */
  lemma RateLimitShortCircuits(cfg: Configuration.ConfigValues, endpoints: map<string, Endpoint>, st: Server, req: Request)
    requires cfg.rateLimitEnabled
    requires ClientIdentity(req.forwardedFor) in st.counts
    requires st.counts[ClientIdentity(req.forwardedFor)] >= cfg.rateLimitCap
    ensures Respond(cfg, endpoints, st.counts, req) == RateLimited
    ensures Next(cfg, endpoints, st, req) == st
  {
  }

  /**
   * A client with no entry yet is never limited, whatever the cap (an `undefined` count
   * compares false), while an entry that has decayed back to 0 is limited by a cap of 0.
   */
  lemma FirstRequestNeverLimited(cfg: Configuration.ConfigValues, endpoints: map<string, Endpoint>, st: Server, req: Request)
    requires ClientIdentity(req.forwardedFor) !in st.counts
    ensures Respond(cfg, endpoints, st.counts, req) == Route(endpoints, req)
    ensures cfg.rateLimitEnabled && cfg.rateLimitCap <= 0 ==>
              Respond(cfg, endpoints, st.counts[ClientIdentity(req.forwardedFor) := 0], req) == RateLimited
  {
  }

  /** With rate limiting off no counter is read or written: only 404, 400 or the endpoint's run. */
  lemma DisabledBypassesLimiter(cfg: Configuration.ConfigValues, endpoints: map<string, Endpoint>, st: Server, req: Request)
    requires !cfg.rateLimitEnabled
    ensures forall counts :: Respond(cfg, endpoints, counts, req) == Route(endpoints, req)
    ensures Respond(cfg, endpoints, st.counts, req) != RateLimited
    ensures Next(cfg, endpoints, st, req) == st
  {
  }

  /** The route key is the path less its first `/`, an empty key naming the root route. */
  lemma {:induction false} RouteKeyOfPath(pathname: string)
    requires pathname != [] && pathname[0] == '/'
    ensures RouteKey(pathname) == if |pathname| == 1 then RootRoute else pathname[1..]
  {
  }

  /** Only the first `/` is dropped, wherever it is; a path without one is its own key. */
  lemma {:induction false} RouteKeyDropsFirstSlash(pathname: string)
    ensures '/' !in pathname && pathname != "" ==> RouteKey(pathname) == pathname
    ensures '/' in pathname && |pathname| > 1 ==>
              RouteKey(pathname) == pathname[..FirstIndex(pathname, '/')] + pathname[FirstIndex(pathname, '/') + 1..]
  {
    if '/' in pathname {
      RemoveFirstAt(pathname, '/');
    }
  }

  /** Past the rate-limit check, 404 comes exactly when the route key is not registered. */
  lemma {:induction false} NotFoundExactlyWhenUnregistered(cfg: Configuration.ConfigValues, endpoints: map<string, Endpoint>, counts: map<string, int>, req: Request)
    requires Respond(cfg, endpoints, counts, req) != RateLimited
    ensures Respond(cfg, endpoints, counts, req) == NotFound <==> RouteKey(req.pathname) !in endpoints
  {
    var key := RouteKey(req.pathname);
    if key in endpoints {
      match Validate(endpoints[key], req.query)
      case Accepted =>
      case MissingRequired(l) =>
      case MissingAlternative(l) =>
    }
  }

  /** A request failing both parameter contracts is told about `params`, with the endpoint's whole list. */
  lemma {:induction false} RequiredReportedFirst(endpoints: map<string, Endpoint>, req: Request, missing: string)
    requires RouteKey(req.pathname) in endpoints
    requires var e := endpoints[RouteKey(req.pathname)];
      e.params.Some? && missing in e.params.value && !Has(req.query, missing)
    ensures Route(endpoints, req) == MissingParameters(endpoints[RouteKey(req.pathname)].params.value)
  {
    var e := endpoints[RouteKey(req.pathname)];
    var i :| 0 <= i < |e.params.value| && e.params.value[i] == missing;
    assert !Has(req.query, e.params.value[i]);
  }

  /** The endpoint runs only when every check passed, and it is given the request's own query. */
  lemma {:induction false} RunOnlyOnAcceptance(cfg: Configuration.ConfigValues, endpoints: map<string, Endpoint>, counts: map<string, int>, req: Request)
    requires Respond(cfg, endpoints, counts, req).Ran?
    ensures var r := Respond(cfg, endpoints, counts, req);
      && !(cfg.rateLimitEnabled && Limited(counts, ClientIdentity(req.forwardedFor), cfg.rateLimitCap))
      && RouteKey(req.pathname) in endpoints
      && r.endpoint == endpoints[RouteKey(req.pathname)]
      && Validate(r.endpoint, req.query) == Accepted
      && r.params == req.query
  {
    var key := RouteKey(req.pathname);
    match Validate(endpoints[key], req.query)
    case Accepted =>
    case MissingRequired(l) =>
    case MissingAlternative(l) =>
  }

  /** Rejections (429, 404, 400) leave every counter and timer as it was. */
  lemma RejectionsKeepState(cfg: Configuration.ConfigValues, endpoints: map<string, Endpoint>, st: Server, req: Request)
    requires !Respond(cfg, endpoints, st.counts, req).Ran?
    ensures Next(cfg, endpoints, st, req) == st
  {
  }

  /**
   * An admission with rate limiting on raises the client's counter by exactly 1, touches no other
   * counter, and schedules exactly one decay `rateLimitExpires * 1000` ms later.
   */
  lemma AdmissionCountsOnce(cfg: Configuration.ConfigValues, endpoints: map<string, Endpoint>, st: Server, req: Request)
    requires cfg.rateLimitEnabled && Respond(cfg, endpoints, st.counts, req).Ran?
    ensures var ip := ClientIdentity(req.forwardedFor); var st' := Next(cfg, endpoints, st, req);
      && Level(st'.counts, ip) == Level(st.counts, ip) + 1
      && (forall other :: other in st.counts && other != ip ==> other in st'.counts && st'.counts[other] == st.counts[other])
      && st'.pending == st.pending + [Decay(st.now + DelayMs(cfg.rateLimitExpires), ip)]
  {
    RecordEffect(st, ClientIdentity(req.forwardedFor), DelayMs(cfg.rateLimitExpires));
  }

  /** Every request keeps the counter invariant. */
  lemma NextConsistent(cfg: Configuration.ConfigValues, endpoints: map<string, Endpoint>, st: Server, req: Request)
    requires Consistent(st, DelayMs(cfg.rateLimitExpires))
    ensures Consistent(Next(cfg, endpoints, st, req), DelayMs(cfg.rateLimitExpires))
  {
    if cfg.rateLimitEnabled && Respond(cfg, endpoints, st.counts, req).Ran? {
      RecordConsistent(st, ClientIdentity(req.forwardedFor), DelayMs(cfg.rateLimitExpires));
    }
  }

  // ---------- bursts with no decay in between ----------

  /**
   * Repeating an acceptable request from a client whose counter stands at `k`: request number
   * `i` (from 0) is admitted exactly when `k + i < cap`, and the counter ends at `k` increased
   * by the number admitted.
   */
  lemma {:induction false} BurstFromCount(cfg: Configuration.ConfigValues, endpoints: map<string, Endpoint>, st: Server, req: Request, n: nat)
    requires cfg.rateLimitEnabled && Route(endpoints, req).Ran?
    requires ClientIdentity(req.forwardedFor) in st.counts
    ensures var ip := ClientIdentity(req.forwardedFor); var k := st.counts[ip];
      var out := Replay(cfg, endpoints, st, Repeat(req, n));
      && (forall i :: 0 <= i < n ==> out.1[i] == if k + i < cfg.rateLimitCap then Route(endpoints, req) else RateLimited)
      && ip in out.0.counts
      && out.0.counts[ip] == if k >= cfg.rateLimitCap then k else Min(cfg.rateLimitCap, k + n)
    decreases n
  {
    var ip := ClientIdentity(req.forwardedFor);
    var k := st.counts[ip];
    var reqs := Repeat(req, n);
    if n > 0 {
      assert reqs[0] == req && reqs[1..] == Repeat(req, n - 1);
      var st1 := Next(cfg, endpoints, st, req);
      BurstFromCount(cfg, endpoints, st1, req, n - 1);
      if k < cfg.rateLimitCap {
        RecordEffect(st, ip, DelayMs(cfg.rateLimitExpires));
        assert st1.counts[ip] == k + 1;
      } else {
        assert st1 == st;
      }
      var out := Replay(cfg, endpoints, st, reqs);
      var rest := Replay(cfg, endpoints, st1, reqs[1..]);
      assert out.1 == [Respond(cfg, endpoints, st.counts, req)] + rest.1;
      forall i | 0 <= i < n
        ensures out.1[i] == if k + i < cfg.rateLimitCap then Route(endpoints, req) else RateLimited
      {
        if i > 0 {
          assert out.1[i] == rest.1[i - 1];
        }
      }
    }
  }

  /**
   * Repeating an acceptable request from a client with no entry yet: the first is always
   * admitted, after that request `i` is admitted exactly when `i < cap`; with no decay fired the
   * counter equals the number admitted, so the request numbered cap + 1 is the first refused.
   */
  lemma {:induction false} BurstFromNewClient(cfg: Configuration.ConfigValues, endpoints: map<string, Endpoint>, st: Server, req: Request, n: nat)
    requires cfg.rateLimitEnabled && Route(endpoints, req).Ran?
    requires ClientIdentity(req.forwardedFor) !in st.counts
    ensures var ip := ClientIdentity(req.forwardedFor);
      var out := Replay(cfg, endpoints, st, Repeat(req, n));
      && (forall i :: 0 <= i < n ==> (out.1[i].Ran? <==> i < Max(cfg.rateLimitCap, 1)))
      && (forall i :: 0 <= i < n ==> out.1[i].Ran? || out.1[i] == RateLimited)
      && Level(out.0.counts, ip) == Min(n, Max(cfg.rateLimitCap, 1))
  {
    var ip := ClientIdentity(req.forwardedFor);
    var reqs := Repeat(req, n);
    if n > 0 {
      assert reqs[0] == req && reqs[1..] == Repeat(req, n - 1);
      var st1 := Next(cfg, endpoints, st, req);
      RecordEffect(st, ip, DelayMs(cfg.rateLimitExpires));
      assert st1.counts[ip] == 1;
      BurstFromCount(cfg, endpoints, st1, req, n - 1);
      var out := Replay(cfg, endpoints, st, reqs);
      var rest := Replay(cfg, endpoints, st1, reqs[1..]);
      assert out.1 == [Respond(cfg, endpoints, st.counts, req)] + rest.1;
      forall i | 0 <= i < n
        ensures out.1[i].Ran? <==> i < Max(cfg.rateLimitCap, 1)
        ensures out.1[i].Ran? || out.1[i] == RateLimited
      {
        if i > 0 {
          assert out.1[i] == rest.1[i - 1];
        }
      }
    }
  }

  /** Every request of a timed sequence comes from client `ip` and passes route lookup and validation. */
  predicate AcceptableFrom(endpoints: map<string, Endpoint>, ip: string, reqs: seq<(nat, Request)>) {
    forall i :: 0 <= i < |reqs| ==> ClientIdentity(reqs[i].1.forwardedFor) == ip && Route(endpoints, reqs[i].1).Ran?
  }

  lemma AcceptableTail(endpoints: map<string, Endpoint>, ip: string, reqs: seq<(nat, Request)>)
    requires reqs != [] && AcceptableFrom(endpoints, ip, reqs)
    ensures ClientIdentity(reqs[0].1.forwardedFor) == ip && Route(endpoints, reqs[0].1).Ran?
    ensures AcceptableFrom(endpoints, ip, reqs[1..])
  {
    assert forall i :: 0 <= i < |reqs| - 1 ==> reqs[1..][i] == reqs[i + 1];
  }

  /**
   * One request of a timed burst: it is admitted exactly when the client is not at the cap,
   * an admission adds exactly 1 to the client's counter (and creates its entry), and none of
   * the client's decays falls due before the rest of the burst is over.
   */
  lemma WindowStep(cfg: Configuration.ConfigValues, endpoints: map<string, Endpoint>, st: Server, ip: string, reqs: seq<(nat, Request)>)
    requires cfg.rateLimitEnabled && reqs != []
    requires ClientIdentity(reqs[0].1.forwardedFor) == ip && Route(endpoints, reqs[0].1).Ran?
    requires Elapsed(reqs) < DelayMs(cfg.rateLimitExpires)
    requires QuietUntil(st.pending, ip, st.now + Elapsed(reqs))
    ensures var st1 := Next(cfg, endpoints, Advance(st, reqs[0].0), reqs[0].1);
      var admitted := !Limited(st.counts, ip, cfg.rateLimitCap);
      && TimedReplay(cfg, endpoints, st, reqs).0 == TimedReplay(cfg, endpoints, st1, reqs[1..]).0
      && TimedReplay(cfg, endpoints, st, reqs).1
         == [if admitted then Route(endpoints, reqs[0].1) else RateLimited] + TimedReplay(cfg, endpoints, st1, reqs[1..]).1
      && Level(st1.counts, ip) == Level(st.counts, ip) + (if admitted then 1 else 0)
      && (ip in st1.counts <==> ip in st.counts || admitted)
      && QuietUntil(st1.pending, ip, st1.now + Elapsed(reqs[1..]))
  {
    var (wait, req) := reqs[0];
    var delay := DelayMs(cfg.rateLimitExpires);
    var arrived := Advance(st, wait);
    IdleAdvanceKeepsLevel(st, wait, ip, st.now + Elapsed(reqs));
    assert Limited(arrived.counts, ip, cfg.rateLimitCap) == Limited(st.counts, ip, cfg.rateLimitCap);
    if !Limited(st.counts, ip, cfg.rateLimitCap) {
      RecordEffect(arrived, ip, delay);
    }
  }

  /**
   * The same burst spread over time: acceptable requests from one client whose counter stands
   * at `k`, arriving over a span shorter than the decay delay while none of the client's earlier
   * decays falls due. Request `i` is admitted exactly when `k + i < cap`, and the counter ends at
   * `k` increased by the number admitted.
   */
  lemma {:induction false} BurstWithinWindow(cfg: Configuration.ConfigValues, endpoints: map<string, Endpoint>, st: Server, ip: string, reqs: seq<(nat, Request)>)
    requires cfg.rateLimitEnabled
    requires AcceptableFrom(endpoints, ip, reqs)
    requires ip in st.counts
    requires Elapsed(reqs) < DelayMs(cfg.rateLimitExpires)
    requires QuietUntil(st.pending, ip, st.now + Elapsed(reqs))
    ensures var k := st.counts[ip]; var out := TimedReplay(cfg, endpoints, st, reqs);
      && (forall i :: 0 <= i < |reqs| ==> out.1[i] == if k + i < cfg.rateLimitCap then Route(endpoints, reqs[i].1) else RateLimited)
      && ip in out.0.counts
      && out.0.counts[ip] == if k >= cfg.rateLimitCap then k else Min(cfg.rateLimitCap, k + |reqs|)
    decreases |reqs|
  {
    if reqs != [] {
      var k := st.counts[ip];
      var st1 := Next(cfg, endpoints, Advance(st, reqs[0].0), reqs[0].1);
      var tail := reqs[1..];
      AcceptableTail(endpoints, ip, reqs);
      WindowStep(cfg, endpoints, st, ip, reqs);
      assert ip in st1.counts && st1.counts[ip] == if k < cfg.rateLimitCap then k + 1 else k;
      BurstWithinWindow(cfg, endpoints, st1, ip, tail);
      assert TimedReplay(cfg, endpoints, st, reqs).0 == TimedReplay(cfg, endpoints, st1, tail).0;
      var out := TimedReplay(cfg, endpoints, st, reqs).1;
      var rest := TimedReplay(cfg, endpoints, st1, tail).1;
      forall i | 0 <= i < |reqs|
        ensures out[i] == if k + i < cfg.rateLimitCap then Route(endpoints, reqs[i].1) else RateLimited
      {
        if i > 0 {
          assert out[i] == rest[i - 1] && tail[i - 1] == reqs[i];
        }
      }
    }
  }

  /**
   * A new client sending `n` acceptable requests within a span shorter than the decay delay:
   * request `i` is admitted exactly when `i < max(cap, 1)`, every other one gets 429, and the
   * counter ends at the number admitted. So after `n <= cap` admissions in such a window the
   * counter is `n`, and the request numbered cap + 1 is refused. Under the invariant a client
   * with no entry has no pending decay (`AbsentClientIsQuiet`).
   */
  lemma {:induction false} BurstWithinWindowFromNewClient(cfg: Configuration.ConfigValues, endpoints: map<string, Endpoint>, st: Server, ip: string, reqs: seq<(nat, Request)>)
    requires cfg.rateLimitEnabled
    requires AcceptableFrom(endpoints, ip, reqs)
    requires ip !in st.counts
    requires Elapsed(reqs) < DelayMs(cfg.rateLimitExpires)
    requires QuietUntil(st.pending, ip, st.now + Elapsed(reqs))
    ensures var out := TimedReplay(cfg, endpoints, st, reqs);
      && (forall i :: 0 <= i < |reqs| ==> (out.1[i].Ran? <==> i < Max(cfg.rateLimitCap, 1)))
      && (forall i :: 0 <= i < |reqs| ==> out.1[i].Ran? || out.1[i] == RateLimited)
      && Level(out.0.counts, ip) == Min(|reqs|, Max(cfg.rateLimitCap, 1))
  {
    if reqs != [] {
      var st1 := Next(cfg, endpoints, Advance(st, reqs[0].0), reqs[0].1);
      var tail := reqs[1..];
      AcceptableTail(endpoints, ip, reqs);
      WindowStep(cfg, endpoints, st, ip, reqs);
      assert ip in st1.counts && st1.counts[ip] == 1;
      BurstWithinWindow(cfg, endpoints, st1, ip, tail);
      var out := TimedReplay(cfg, endpoints, st, reqs).1;
      var rest := TimedReplay(cfg, endpoints, st1, tail).1;
      forall i | 0 <= i < |reqs|
        ensures out[i].Ran? <==> i < Max(cfg.rateLimitCap, 1)
        ensures out[i].Ran? || out[i] == RateLimited
      {
        if i > 0 {
          assert out[i] == rest[i - 1] && tail[i - 1] == reqs[i];
        }
      }
    }
  }

  /** With a cap of 2, three requests in immediate succession get: run, run, 429. */
  lemma {:induction false} CapOfTwo(cfg: Configuration.ConfigValues, endpoints: map<string, Endpoint>, req: Request)
    requires cfg.rateLimitEnabled && cfg.rateLimitCap == 2 && Route(endpoints, req).Ran?
    ensures Replay(cfg, endpoints, Initial(0), [req, req, req]).1 == [Route(endpoints, req), Route(endpoints, req), RateLimited]
  {
    assert Repeat(req, 3) == [req, req, req];
    BurstFromNewClient(cfg, endpoints, Initial(0), req, 3);
    var out := Replay(cfg, endpoints, Initial(0), [req, req, req]).1;
    assert out[0].Ran? && out[1].Ran? && out[2] == RateLimited;
    RunOnlyOnAcceptanceAt(cfg, endpoints, Initial(0), [req, req, req]);
  }

  /** Every response of a replay that runs an endpoint is that request's `Route` outcome. */
  lemma {:induction false} RunOnlyOnAcceptanceAt(cfg: Configuration.ConfigValues, endpoints: map<string, Endpoint>, st: Server, reqs: seq<Request>)
    ensures var out := Replay(cfg, endpoints, st, reqs).1;
      forall i :: 0 <= i < |reqs| && out[i].Ran? ==> out[i] == Route(endpoints, reqs[i])
    decreases |reqs|
  {
    if reqs != [] {
      var st1 := Next(cfg, endpoints, st, reqs[0]);
      RunOnlyOnAcceptanceAt(cfg, endpoints, st1, reqs[1..]);
      var out := Replay(cfg, endpoints, st, reqs).1;
      var rest := Replay(cfg, endpoints, st1, reqs[1..]).1;
      assert out == [Respond(cfg, endpoints, st.counts, reqs[0])] + rest;
      forall i | 0 <= i < |reqs| && out[i].Ran?
        ensures out[i] == Route(endpoints, reqs[i])
      {
        if i > 0 {
          assert out[i] == rest[i - 1] && reqs[i] == reqs[1..][i - 1];
        }
      }
    }
  }

  // ---------- the sliding window ----------

  /**
   * Once a full decay delay has passed with no new admission, every counter is back to 0, so
   * any acceptable request is admitted again as long as the cap is positive.
   */
  lemma AdmittedAfterQuietPeriod(cfg: Configuration.ConfigValues, endpoints: map<string, Endpoint>, st: Server, req: Request, dt: nat)
    requires Consistent(st, DelayMs(cfg.rateLimitExpires))
    requires dt >= DelayMs(cfg.rateLimitExpires) && cfg.rateLimitCap >= 1
    ensures Respond(cfg, endpoints, Advance(st, dt).counts, req) == Route(endpoints, req)
  {
    QuietPeriodDrains(st, DelayMs(cfg.rateLimitExpires), dt);
    assert Level(Advance(st, dt).counts, ClientIdentity(req.forwardedFor)) == 0;
  }

  /**
   * A cap of 1 and a decay of 1 s: one admitted request, 1.5 s of quiet, and a second
   * request from the same client is admitted again.
   */
  lemma CapOfOneAfterDelay(cfg: Configuration.ConfigValues, endpoints: map<string, Endpoint>, req: Request)
    requires cfg.rateLimitEnabled && cfg.rateLimitCap == 1 && cfg.rateLimitExpires == 1
    requires Route(endpoints, req).Ran?
    ensures Respond(cfg, endpoints, Initial(0).counts, req) == Route(endpoints, req)
    ensures Respond(cfg, endpoints, Next(cfg, endpoints, Initial(0), req).counts, req) == RateLimited
    ensures Respond(cfg, endpoints, Advance(Next(cfg, endpoints, Initial(0), req), 1500).counts, req) == Route(endpoints, req)
  {
    var st1 := Next(cfg, endpoints, Initial(0), req);
    RecordEffect(Initial(0), ClientIdentity(req.forwardedFor), DelayMs(1));
    NextConsistent(cfg, endpoints, Initial(0), req);
    AdmittedAfterQuietPeriod(cfg, endpoints, st1, req, 1500);
  }
}
