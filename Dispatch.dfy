/**
 * The request handler passed to the server: client identity, the rate-limit check, route
 * resolution, the parameter contracts, and the admission that bumps the client's counter.
 * The pure functions say what one request does; `Dispatcher` is the handler with its
 * module-level counter table, proved against them.
 */
module Dispatch {
  import opened Wrappers
  import opened Strings
  import opened Endpoints
  import opened RateLimiter
  import Configuration

  /** What the handler reads of a request: the `x-forwarded-for` header (`null` when absent), the URL's path and query. */
  datatype Request = Request(forwardedFor: Option<string>, pathname: string, query: Query)

  /** The outcomes: four fixed rejections, or the endpoint's `run` called with the query. */
  datatype Response =
    | RateLimited
    | NotFound
    | MissingParameters(required: seq<string>)
    | MissingOneOf(oneOf: seq<string>)
    | Ran(endpoint: Endpoint, params: Query)

  /** The JSON body the handler itself builds for a rejection. */
  datatype Body = Body(success: bool, code: int, error: string, required: Option<seq<string>>, oneOf: Option<seq<string>>)

  /**
   * The body of each rejection: 429 for the rate limit and 404 for an unknown route, each with
   * its own message; 400 for the two parameter errors, carrying the endpoint's whole list.
   */
  function Envelope(r: Response): (b: Option<Body>)
    ensures b.None? <==> r.Ran?
    ensures b.Some? ==> !b.value.success && b.value.code in {400, 404, 429}
    ensures r.RateLimited? <==> b.Some? && b.value.code == 429
    ensures r.NotFound? <==> b.Some? && b.value.code == 404
    ensures b.Some? ==> (b.value.code == 400 <==> r.MissingParameters? || r.MissingOneOf?)
    ensures r.RateLimited? ==> b.value.error == RateLimitedMessage
    ensures r.NotFound? ==> b.value.error == NotFoundMessage
    ensures r.MissingParameters? ==>
              b.value.error == MissingParametersMessage && b.value.required == Some(r.required) && b.value.oneOf.None?
    ensures r.MissingOneOf? ==>
              b.value.error == MissingOneOfMessage && b.value.oneOf == Some(r.oneOf) && b.value.required.None?
    ensures b.Some? && !r.MissingParameters? ==> b.value.required.None?
    ensures b.Some? && !r.MissingOneOf? ==> b.value.oneOf.None?
  {
    match r
    case RateLimited => Some(Body(false, 429, RateLimitedMessage, None, None))
    case NotFound => Some(Body(false, 404, NotFoundMessage, None, None))
    case MissingParameters(l) => Some(Body(false, 400, MissingParametersMessage, Some(l), None))
    case MissingOneOf(l) => Some(Body(false, 400, MissingOneOfMessage, None, Some(l)))
    case Ran(_, _) => None
  }

  const RateLimitedMessage: string := "You are being ratelimited"
  const NotFoundMessage: string := "Not found"
  const MissingParametersMessage: string := "Missing parameters"
  const MissingOneOfMessage: string := "Specify one of these parameters"

  const DefaultIdentity: string := "0.0.0.0"
  const RootRoute: string := "root"

  /** `req.headers.get('x-forwarded-for') || '0.0.0.0'`. */
  function ClientIdentity(forwardedFor: Option<string>): (ip: string)
    ensures ip != ""
    ensures forwardedFor.Some? && forwardedFor.value != "" ==> ip == forwardedFor.value
    ensures ip != DefaultIdentity ==> forwardedFor == Some(ip)
  {
    if forwardedFor.Some? && forwardedFor.value != "" then forwardedFor.value else DefaultIdentity
  }

  /** `pathname.replace('/', '') || 'root'`. */
  function RouteKey(pathname: string): (key: string)
    ensures key != ""
  {
    var stripped := RemoveFirst(pathname, '/');
    if stripped == "" then RootRoute else stripped
  }

  /** Route lookup and the parameter contracts: what happens once the rate-limit check is passed. */
  function Route(endpoints: map<string, Endpoint>, req: Request): Response {
    var key := RouteKey(req.pathname);
    if key !in endpoints then NotFound
    else
      match Validate(endpoints[key], req.query)
      case MissingRequired(l) => MissingParameters(l)
      case MissingAlternative(l) => MissingOneOf(l)
      case Accepted => Ran(endpoints[key], req.query)
  }

  /** The response to `req` given the counters as they stand. */
  function Respond(cfg: Configuration.ConfigValues, endpoints: map<string, Endpoint>, counts: map<string, int>, req: Request): Response {
    if cfg.rateLimitEnabled && Limited(counts, ClientIdentity(req.forwardedFor), cfg.rateLimitCap) then RateLimited
    else Route(endpoints, req)
  }

  /** The counter state after `req`: only an admitted request, with rate limiting on, changes it. */
  function Next(cfg: Configuration.ConfigValues, endpoints: map<string, Endpoint>, st: Server, req: Request): Server {
    if cfg.rateLimitEnabled && Respond(cfg, endpoints, st.counts, req).Ran? then
      Record(st, ClientIdentity(req.forwardedFor), DelayMs(cfg.rateLimitExpires))
    else st
  }

  /** Requests handled one after the other with no time passing in between. */
  function Replay(cfg: Configuration.ConfigValues, endpoints: map<string, Endpoint>, st: Server, reqs: seq<Request>)
    : (out: (Server, seq<Response>))
    ensures |out.1| == |reqs|
    decreases |reqs|
  {
    if reqs == [] then (st, [])
    else
      var rest := Replay(cfg, endpoints, Next(cfg, endpoints, st, reqs[0]), reqs[1..]);
      (rest.0, [Respond(cfg, endpoints, st.counts, reqs[0])] + rest.1)
  }

  /**
   * Requests handled one after the other, each arriving `wait` ms after the one before it:
   * the clock advances (firing what falls due), then the request is handled.
   */
  function TimedReplay(cfg: Configuration.ConfigValues, endpoints: map<string, Endpoint>, st: Server, reqs: seq<(nat, Request)>)
    : (out: (Server, seq<Response>))
    ensures |out.1| == |reqs|
    decreases |reqs|
  {
    if reqs == [] then (st, [])
    else
      var (wait, req) := reqs[0];
      var arrived := Advance(st, wait);
      var rest := TimedReplay(cfg, endpoints, Next(cfg, endpoints, arrived, req), reqs[1..]);
      (rest.0, [Respond(cfg, endpoints, arrived.counts, req)] + rest.1)
  }

  /** The time a timed sequence of requests spans, in ms. */
  function Elapsed(reqs: seq<(nat, Request)>): nat
    decreases |reqs|
  {
    if reqs == [] then 0 else reqs[0].0 + Elapsed(reqs[1..])
  }

  /** `n` copies of one request. */
  function Repeat(req: Request, n: nat): (reqs: seq<Request>)
    ensures |reqs| == n && forall i :: 0 <= i < n ==> reqs[i] == req
  {
    if n == 0 then [] else [req] + Repeat(req, n - 1)
  }

  /**
   * The server's `fetch` handler together with the `rateLimits` table it closes over and the
   * timers it schedules. `now` is the logical clock in milliseconds.
   */
  class Dispatcher {
    const config: Configuration.ConfigValues
    const endpoints: map<string, Endpoint>
    var counts: map<string, int>
    var pending: seq<Decay>
    var now: int

    function State(): Server
      reads this
    {
      Server(counts, pending, now)
    }

    ghost predicate Valid()
      reads this
    {
      Consistent(State(), DelayMs(config.rateLimitExpires))
    }

    constructor (config: Configuration.ConfigValues, endpoints: map<string, Endpoint>, start: int)
      ensures this.config == config && this.endpoints == endpoints
      ensures State() == Initial(start) && Valid()
    {
      this.config := config;
      this.endpoints := endpoints;
      counts, pending, now := map[], [], start;
    }

    /** Handle one request at the current time. */
    method Fetch(req: Request) returns (resp: Response)
      requires Valid()
      modifies this
      ensures Valid()
      ensures resp == Respond(config, endpoints, old(counts), req)
      ensures State() == Next(config, endpoints, old(State()), req)
    {
      var consumerIP := ClientIdentity(req.forwardedFor);
      if config.rateLimitEnabled {
        if consumerIP == "" {
          // the "x-forwarded-for header is required" error cannot be raised: the fallback is never empty
          assert false;
        }
        if consumerIP in counts && counts[consumerIP] >= config.rateLimitCap {
          return RateLimited;
        }
      }

      var key := RouteKey(req.pathname);
      if key !in endpoints {
        return NotFound;
      }
      var endpoint := endpoints[key];
      if Constrains(endpoint.params) && !Every(endpoint.params.value, req.query) {
        return MissingParameters(endpoint.params.value);
      }
      if Constrains(endpoint.oneOf) && !Any(endpoint.oneOf.value, req.query) {
        return MissingOneOf(endpoint.oneOf.value);
      }

      resp := Ran(endpoint, req.query);
      assert resp == Route(endpoints, req);
      if config.rateLimitEnabled {
        RecordConsistent(State(), consumerIP, DelayMs(config.rateLimitExpires));
        CountAdmission(consumerIP);
      }
    }

    /** Reset a falsy counter to 0, add 1, and schedule the one decrement for this admission. */
    method CountAdmission(consumerIP: string)
      modifies this
      ensures State() == Record(old(State()), consumerIP, DelayMs(config.rateLimitExpires))
    {
      if consumerIP !in counts || counts[consumerIP] == 0 {
        counts := counts[consumerIP := 0];
      }
      counts := counts[consumerIP := counts[consumerIP] + 1];
      pending := pending + [Decay(now + DelayMs(config.rateLimitExpires), consumerIP)];
    }

    /** Let `dt` milliseconds pass, running every decay timer that falls due, oldest first. */
    method AdvanceTime(dt: nat)
      requires Valid()
      modifies this
      ensures Valid()
      ensures State() == Advance(old(State()), dt)
    {
      now := now + dt;
      ghost var start := State();
      assert start == old(State()).(now := old(now) + dt);
      ghost var k := DueCount(start.pending, now);
      var fired := 0;
      while pending != [] && pending[0].due <= now
        invariant 0 <= fired <= k
        invariant pending == start.pending[fired..]
        invariant counts == Decrement(start.counts, start.pending[..fired])
        invariant now == start.now
        decreases |pending|
      {
        var d := pending[0];
        assert d == start.pending[fired];
        counts := counts[d.ip := Level(counts, d.ip) - 1];
        pending := pending[1..];
        assert start.pending[..fired + 1] == start.pending[..fired] + [d];
        DecrementAppend(start.counts, start.pending[..fired], d);
        fired := fired + 1;
      }
      assert fired == k;
      assert State() == Fire(start);
      AdvanceConsistent(old(State()), DelayMs(config.rateLimitExpires), dt);
    }
  }
}
