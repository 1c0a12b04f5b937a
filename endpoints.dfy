/** The `Endpoint` of hnpixels/core.py: one URL with its default headers, its
    own rate limiter, and the activation protocol that probes the URL with
    HEAD before the first real request. */
module Endpoints {
  import opened Wrappers
  import opened Failures
  import opened Limiting
  import opened Http

  // ---------------------------------------------------------------------------
  // Rate-limit headers

  /** The header sets `update_ratelimiter` understands. */
  datatype HeaderSet = RequestsTriple | CooldownReset | RetryAfter

  /** The order in which they are tried. */
  const Priority: seq<HeaderSet> := [RequestsTriple, CooldownReset, RetryAfter]

  function Keys(hs: HeaderSet): set<string> {
    match hs
    case RequestsTriple => {"requests-remaining", "requests-limit", "requests-reset"}
    case CooldownReset => {"cooldown-reset"}
    case RetryAfter => {"retry-after"}
  }

  /** What a complete header set says; the two cooldown sets mean "nothing remaining". */
  function Read(hs: HeaderSet, h: Headers): Limits
    requires Keys(hs) <= h.Keys
  {
    match hs
    case RequestsTriple => Limits(h["requests-remaining"], h["requests-limit"], h["requests-reset"])
    case CooldownReset => Limits(0.0, 0.0, h["cooldown-reset"])
    case RetryAfter => Limits(0.0, 0.0, h["retry-after"])
  }

  /** Reference definition: the first set in `order` whose keys are all present. */
  function FirstComplete(order: seq<HeaderSet>, h: Headers): (r: Option<HeaderSet>)
    ensures r.Some? ==> r.value in order && Keys(r.value) <= h.Keys
    ensures r.None? ==> forall hs :: hs in order ==> !(Keys(hs) <= h.Keys)
  {
    if order == [] then None
    else if Keys(order[0]) <= h.Keys then Some(order[0])
    else FirstComplete(order[1..], h)
  }

  lemma PriorityOrder(h: Headers)
    ensures FirstComplete(Priority, h) ==
              if Keys(RequestsTriple) <= h.Keys then Some(RequestsTriple)
              else if "cooldown-reset" in h then Some(CooldownReset)
              else if "retry-after" in h then Some(RetryAfter)
              else None
  {
    assert Priority[1..] == [CooldownReset, RetryAfter];
    assert [CooldownReset, RetryAfter][1..] == [RetryAfter];
    assert [RetryAfter][1..] == [];
    assert FirstComplete([RetryAfter], h) == if "retry-after" in h then Some(RetryAfter) else None;
    assert FirstComplete([CooldownReset, RetryAfter], h) ==
             if "cooldown-reset" in h then Some(CooldownReset) else FirstComplete([RetryAfter], h);
  }

  /** The try/except chain of `update_ratelimiter`: the `requests-*` triple
      when all three keys are there, else `cooldown-reset`, else
      `retry-after`, else KeyError. */
  function SelectLimits(h: Headers): (r: Result<Limits, Failure>)
    ensures r.Failure? ==> r.error == KeyError && "retry-after" !in h && "cooldown-reset" !in h
  {
    if "requests-remaining" in h && "requests-limit" in h && "requests-reset" in h then
      Success(Limits(h["requests-remaining"], h["requests-limit"], h["requests-reset"]))
    else if "cooldown-reset" in h then
      Success(Limits(0.0, 0.0, h["cooldown-reset"]))
    else if "retry-after" in h then
      Success(Limits(0.0, 0.0, h["retry-after"]))
    else
      Failure(KeyError)
  }

  /** `SelectLimits` agrees with the priority search. */
  lemma SelectLimitsAgrees(h: Headers)
    ensures SelectLimits(h).Failure? <==> FirstComplete(Priority, h).None?
    ensures SelectLimits(h).Success? ==> SelectLimits(h).value == Read(FirstComplete(Priority, h).value, h)
  {
    PriorityOrder(h);
  }

  /** The effect of `update_ratelimiter` at `now`: the new guard time, or the
      KeyError that leaves the guard as it was. */
  function Update(guard: real, h: Headers, now: real): Result<real, Failure> {
    match SelectLimits(h)
    case Failure(e) => Failure(e)
    case Success(l) => Success(Unlocked(guard, l.remaining, l.reset, now))
  }

  // ---------------------------------------------------------------------------
  // The protocol as functions

  /** What an `Endpoint` is constructed with. */
  datatype Route = Route(verb: string, url: string, defaults: Option<map<string, string>>)

  /** The default headers with the call's headers laid over them. */
  function Merge(defaults: Option<map<string, string>>, call: Option<map<string, string>>)
    : (m: map<string, string>)
    ensures defaults.None? && call.None? ==> m == map[]
  {
    (if defaults.Some? then defaults.value else map[]) + (if call.Some? then call.value else map[])
  }

  /** The merged headers hold the union of the keys; a call header overrides
      a default; nothing else is added. */
  lemma MergeLaws(defaults: Option<map<string, string>>, call: Option<map<string, string>>)
    ensures var m := Merge(defaults, call);
            && (defaults.Some? && call.Some? ==> m.Keys == defaults.value.Keys + call.value.Keys)
            && (call.Some? ==> forall k :: k in call.value ==> k in m && m[k] == call.value[k])
            && (defaults.Some? ==> forall k :: k in defaults.value && (call.None? || k !in call.value) ==>
                                     k in m && m[k] == defaults.value[k])
            && (forall k :: k in m ==> (call.Some? && k in call.value) || (defaults.Some? && k in defaults.value))
  {
  }

  /** An empty header dict is passed as `None`. */
  function HeaderArg(m: map<string, string>): Option<map<string, string>> {
    if m == map[] then None else Some(m)
  }

  /** One reply as both `activate` and the end of `request` treat it: a
      success status updates the limiter; 429 updates it and raises
      RatelimitError; any other status raises HTTPError and leaves it alone.
      A KeyError from the update replaces both outcomes. */
  datatype Handled = Handled(result: Result<Response, Failure>, guard: real)

  function Handle(guard: real, reply: Reply, now: real): Handled {
    match reply
    case ConnectionError => Handled(Failure(NetworkError), guard)
    case Delivered(resp) =>
      if IsOk(resp.status) || resp.status == TooManyRequests then
        match Update(guard, resp.headers, now)
        case Failure(e) => Handled(Failure(e), guard)
        case Success(g) => Handled(if IsOk(resp.status) then Success(resp) else Failure(RatelimitError(resp.status)), g)
      else
        Handled(Failure(HTTPError(resp.status)), guard)
  }

  /** The state an exchange leaves behind, the requests it sent, and its result. */
  datatype Exchange = Exchange(
    active: bool,
    guard: real,
    wire: Wire,
    sent: seq<Request>,
    result: Result<Response, Failure>)

  /** One `activate` call: a HEAD probe with the default headers. */
  function Probe(route: Route, guard: real, wire: Wire): Exchange {
    var h := Handle(guard, Next(wire.replies), wire.now);
    Exchange(false, h.guard, Wire(wire.now, Rest(wire.replies)),
             [Request("HEAD", route.url, route.defaults, NoPayload, wire.now)], h.result)
  }

  /** HTTP errors escaping activation are re-raised as "Failed to access endpoint". */
  function Wrapped(r: Result<Response, Failure>): Result<Response, Failure> {
    if r.Failure? && IsHTTPError(r.error) then Failure(ActivationError(r.error)) else r
  }

  /** Activation: probe; after a RatelimitError probe once more, at once. */
  function Activation(route: Route, guard: real, wire: Wire): Exchange {
    var first := Probe(route, guard, wire);
    if first.result.Failure? && first.result.error.RatelimitError? then
      var second := Probe(route, first.guard, first.wire);
      second.(sent := first.sent + second.sent, result := Wrapped(second.result))
    else
      first.(result := Wrapped(first.result))
  }

  /** The real request: sleep until the guard time, send with merged headers,
      handle the reply. */
  function Dispatch(route: Route, guard: real, wire: Wire, call: Option<map<string, string>>, payload: Payload)
    : Exchange
  {
    var at := wire.now + Wait(guard, wire.now);
    var h := Handle(guard, Next(wire.replies), at);
    Exchange(true, h.guard, Wire(at, Rest(wire.replies)),
             [Request(route.verb, route.url, HeaderArg(Merge(route.defaults, call)), payload, at)], h.result)
  }

  /** `Endpoint.request`: activate while inactive, then dispatch. */
  function RequestSpec(route: Route, active: bool, guard: real, wire: Wire,
                       call: Option<map<string, string>>, payload: Payload): Exchange
  {
    if active then Dispatch(route, guard, wire, call, payload)
    else
      var act := Activation(route, guard, wire);
      if act.result.Failure? then act
      else
        var main := Dispatch(route, act.guard, act.wire, call, payload);
        main.(sent := act.sent + main.sent)
  }

  // ---------------------------------------------------------------------------
  // The object

  class Endpoint {
    const route: Route
    const limiter: Ratelimiter
    var active: bool

    /** `Endpoint(method, url, headers=...)` at `now`; its limiter has no warmup. */
    constructor (route: Route, now: real)
      ensures this.route == route && !active
      ensures fresh(limiter) && limiter.guardTime == now
    {
      this.route := route;
      limiter := new Ratelimiter(now, 0.0);
      active := false;
    }

    method UpdateRatelimiter(h: Headers, now: real) returns (o: Outcome<Failure>)
      modifies limiter
      ensures var u := Update(old(limiter.guardTime), h, now);
              && (u.Success? ==> o == Pass && limiter.guardTime == u.value)
              && (u.Failure? ==> o == Fail(u.error) && limiter.guardTime == old(limiter.guardTime))
    {
      if "requests-remaining" in h && "requests-limit" in h && "requests-reset" in h {
        limiter.Unlock(h["requests-remaining"], h["requests-limit"], h["requests-reset"], now);
      } else if "cooldown-reset" in h {
        limiter.Unlock(0.0, 0.0, h["cooldown-reset"], now);
      } else if "retry-after" in h {
        limiter.Unlock(0.0, 0.0, h["retry-after"], now);
      } else {
        return Fail(KeyError);
      }
      return Pass;
    }

    /** The reply handling shared by `activate` and `request`. */
    method Receive(reply: Reply, now: real) returns (r: Result<Response, Failure>)
      modifies limiter
      ensures var h := Handle(old(limiter.guardTime), reply, now);
              limiter.guardTime == h.guard && r == h.result
    {
      if reply.ConnectionError? {
        return Failure(NetworkError);
      }
      var response := reply.response;
      if IsOk(response.status) {
        var o := UpdateRatelimiter(response.headers, now);
        r := if o.Pass? then Success(response) else Failure(o.error);
      } else if response.status == TooManyRequests {
        var o := UpdateRatelimiter(response.headers, now);
        r := if o.Pass? then Failure(RatelimitError(response.status)) else Failure(o.error);
      } else {
        r := Failure(HTTPError(response.status));
      }
    }

    method Activate(net: Network) returns (o: Outcome<Failure>)
      modifies limiter, net
      ensures var x := Probe(route, old(limiter.guardTime), old(net.View()));
              && limiter.guardTime == x.guard && net.View() == x.wire
              && net.sent == old(net.sent) + x.sent
              && o == (if x.result.Success? then Pass else Fail(x.result.error))
    {
      var reply := net.Send("HEAD", route.url, route.defaults, NoPayload);
      var r := Receive(reply, net.now);
      o := if r.Success? then Pass else Fail(r.error);
    }

    method Request(net: Network, call: Option<map<string, string>>, payload: Payload)
      returns (r: Result<Response, Failure>)
      modifies this, limiter, net
      ensures var x := RequestSpec(route, old(active), old(limiter.guardTime), old(net.View()), call, payload);
              && active == x.active && limiter.guardTime == x.guard && net.View() == x.wire
              && net.sent == old(net.sent) + x.sent && r == x.result
    {
      ghost var act := Activation(route, limiter.guardTime, net.View());
      ghost var first := Probe(route, limiter.guardTime, net.View());
      if !active {
        var o := Activate(net);
        if o.Fail? && o.error.RatelimitError? {
          o := Activate(net);
          AppendAssoc(old(net.sent), first.sent, Probe(route, first.guard, first.wire).sent);
        }
        if o.Fail? {
          return if IsHTTPError(o.error) then Failure(ActivationError(o.error)) else Failure(o.error);
        }
        active := true;
      }
      r := Throttled(net, call, payload);
      if !old(active) {
        AppendAssoc(old(net.sent), act.sent, Dispatch(route, act.guard, act.wire, call, payload).sent);
      }
    }

    /** The part of `request` after activation: merge headers, `lock`, send,
        handle the reply. */
    method Throttled(net: Network, call: Option<map<string, string>>, payload: Payload)
      returns (r: Result<Response, Failure>)
      modifies limiter, net
      ensures var x := Dispatch(route, old(limiter.guardTime), old(net.View()), call, payload);
              && limiter.guardTime == x.guard && net.View() == x.wire
              && net.sent == old(net.sent) + x.sent && r == x.result
    {
      var headers: map<string, string> := map[];
      if route.defaults.Some? {
        headers := headers + route.defaults.value;
      }
      if call.Some? {
        headers := headers + call.value;
      }
      assert headers == Merge(route.defaults, call);
      var wait := limiter.Lock(net.now);
      net.Sleep(wait);
      var reply := net.Send(route.verb, route.url, HeaderArg(headers), payload);
      r := Receive(reply, net.now);
    }
  }

  // ---------------------------------------------------------------------------
  // Laws of the protocol

  /** A missing header set is a KeyError that leaves the guard as it was. */
  lemma NoHeadersNoUpdate(guard: real, h: Headers, now: real)
    requires !(Keys(RequestsTriple) <= h.Keys) && "cooldown-reset" !in h && "retry-after" !in h
    ensures Update(guard, h, now) == Failure(KeyError)
  {
  }

  /** A complete `requests-*` triple wins over the fallbacks, and then only a
      zero `requests-remaining` moves the guard. */
  lemma TripleTakesPriority(guard: real, h: Headers, now: real)
    requires Keys(RequestsTriple) <= h.Keys
    ensures Update(guard, h, now) ==
            Success(if h["requests-remaining"] == 0.0 then now + h["requests-reset"] else guard)
  {
  }

  /** Either fallback sets a cooldown of its own length from now. */
  lemma FallbackIsCooldown(guard: real, h: Headers, now: real)
    requires !(Keys(RequestsTriple) <= h.Keys)
    requires "cooldown-reset" in h || "retry-after" in h
    ensures Update(guard, h, now) ==
            Success(now + if "cooldown-reset" in h then h["cooldown-reset"] else h["retry-after"])
  {
  }

  /** Activation probes once, or twice exactly when the first probe met a 429
      carrying usable rate-limit headers; every probe is a HEAD to the
      endpoint's URL with its default headers, sent without waiting. */
  lemma ActivationProbes(route: Route, guard: real, wire: Wire)
    ensures var a := Activation(route, guard, wire);
            && 1 <= |a.sent| <= 2
            && (forall i :: 0 <= i < |a.sent| ==>
                  a.sent[i] == Request("HEAD", route.url, route.defaults, NoPayload, wire.now))
            && (|a.sent| == 2 <==>
                  Next(wire.replies).Delivered? && Next(wire.replies).response.status == TooManyRequests
                  && SelectLimits(Next(wire.replies).response.headers).Success?)
  {
  }

  /** Activation succeeds exactly when its last probe was answered with a
      success status and usable rate-limit headers. */
  lemma {:induction false} ActivationSucceeds(route: Route, guard: real, wire: Wire)
    ensures var a := Activation(route, guard, wire);
            var last := Next(if |a.sent| == 2 then Rest(wire.replies) else wire.replies);
            a.result.Success? <==>
              last.Delivered? && IsOk(last.response.status) && SelectLimits(last.response.headers).Success?
  {
    ActivationProbes(route, guard, wire);
  }

  /** Errors escaping activation: HTTP errors, the retried 429 included, come
      out wrapped; a missing header set or a transport failure comes out as it is. */
  lemma ActivationErrors(route: Route, guard: real, wire: Wire)
    ensures var a := Activation(route, guard, wire);
            a.result.Failure? ==>
              (a.result.error.ActivationError? && (a.result.error.cause.HTTPError? || a.result.error.cause.RatelimitError?))
              || a.result.error == KeyError || a.result.error == NetworkError
  {
  }

  /** `_active` is never reset, is set only by a successful activation, and an
      active endpoint sends just the one request. */
  lemma ActiveFlag(route: Route, active: bool, guard: real, wire: Wire,
                   call: Option<map<string, string>>, payload: Payload)
    ensures var x := RequestSpec(route, active, guard, wire, call, payload);
            && (active ==> x.active && |x.sent| == 1)
            && (!active ==> (x.active <==> Activation(route, guard, wire).result.Success?))
  {
  }

  /** The real request goes out once the guard time has passed, with the
      merged headers; the reply decides the result and the new guard: success
      returns the response, 429 raises RatelimitError, both after updating the
      limiter; any other status raises HTTPError with the limiter untouched. */
  lemma {:induction false} DispatchOutcome(route: Route, guard: real, wire: Wire,
                                           call: Option<map<string, string>>, payload: Payload)
    ensures var x := Dispatch(route, guard, wire, call, payload);
            var reply := Next(wire.replies);
            && |x.sent| == 1 && x.sent[0].at >= guard && x.sent[0].at >= wire.now
            && x.sent[0].headers == HeaderArg(Merge(route.defaults, call))
            && x.wire.now == x.sent[0].at
            && (reply.ConnectionError? ==> x.result == Failure(NetworkError) && x.guard == guard)
            && (reply.Delivered? && IsOk(reply.response.status) ==>
                  match Update(guard, reply.response.headers, x.sent[0].at)
                  case Success(g) => x.result == Success(reply.response) && x.guard == g
                  case Failure(e) => x.result == Failure(e) && x.guard == guard)
            && (reply.Delivered? && reply.response.status == TooManyRequests ==>
                  match Update(guard, reply.response.headers, x.sent[0].at)
                  case Success(g) => x.result == Failure(RatelimitError(TooManyRequests)) && x.guard == g
                  case Failure(e) => x.result == Failure(e) && x.guard == guard)
            && (reply.Delivered? && !IsOk(reply.response.status) && reply.response.status != TooManyRequests ==>
                  x.result == Failure(HTTPError(reply.response.status)) && x.guard == guard)
  {
  }

  /** A 429 on the first probe and success afterwards: two probes, then the
      request itself, which succeeds. */
  lemma RetryScenario(route: Route, guard: real, now: real, resp: Response)
    requires resp.status == 200 && Keys(RequestsTriple) <= resp.headers.Keys
    requires resp.headers["requests-remaining"] == 3.0
    ensures var first := Response(TooManyRequests, map["retry-after" := 5.0], [], None);
            var x := RequestSpec(route, false, guard, Wire(now, [Delivered(first), Delivered(resp), Delivered(resp)]),
                                 None, NoPayload);
            && x.active && x.result == Success(resp) && |x.sent| == 3
            && x.sent[0].verb == "HEAD" && x.sent[1].verb == "HEAD"
            && x.sent[2].at == now + 5.0
  {
  }
}
