/** The `Painter` client of hnpixels/core.py: three endpoints of the Pixels
    API that share the bearer-token headers, the colour lookup, the
    check-before-write `paint`, the unthrottled canvas size and the `sketch`
    snapshot. */
module Painters {
  import opened Wrappers
  import opened Failures
  import opened Colours
  import opened Sketches
  import opened Http
  import opened Endpoints

  const Api: string := "https://pixels.pythondiscord.com"

  /** `Painter.endpoint`: the API root followed by the endpoint name. */
  function EndpointUrl(name: string): (url: string)
    ensures |url| == |Api| + |name|
    ensures url[..|Api|] == Api && url[|Api|..] == name
  {
    Api + name
  }

  /** The four endpoint names lead to four different URLs. */
  lemma EndpointUrlsDistinct()
    ensures EndpointUrl("/get_pixel") != EndpointUrl("/set_pixel")
    ensures EndpointUrl("/get_pixel") != EndpointUrl("/get_pixels")
    ensures EndpointUrl("/get_pixels") != EndpointUrl("/set_pixel")
    ensures EndpointUrl("/get_size") !in {EndpointUrl("/get_pixel"), EndpointUrl("/get_pixels"), EndpointUrl("/set_pixel")}
  {
    assert EndpointUrl("/get_pixel")[|Api|..] == "/get_pixel";
    assert EndpointUrl("/set_pixel")[|Api|..] == "/set_pixel";
    assert EndpointUrl("/get_pixels")[|Api|..] == "/get_pixels";
    assert EndpointUrl("/get_size")[|Api|..] == "/get_size";
  }

  /** The headers every request carries. */
  function AuthHeaders(token: string): map<string, string> {
    map["Authorization" := "Bearer " + token]
  }

  // ---------------------------------------------------------------------------
  // Reading the bodies

  /** `Colour.from_hex(response.json()["rgb"])` on a request's result: a body
      that is not JSON, a missing "rgb" key, a number where the code expects
      a string (`len()` of an int) and a bad hex code are the errors. */
  function ReadColour(result: Result<Response, Failure>): (c: Result<Colour, Failure>)
    ensures c.Success? <==>
              result.Success? && result.value.json.Some? && "rgb" in result.value.json.value
              && result.value.json.value["rgb"].JStr? && IsHexCode(result.value.json.value["rgb"].s)
    ensures c.Success? ==> IsByteColour(c.value) && c == FromHex(result.value.json.value["rgb"].s)
    ensures result.Failure? ==> c == Failure(result.error)
    ensures result.Success? && result.value.json.None? ==> c == Failure(JsonDecodeError)
    ensures result.Success? && result.value.json.Some? ==>
              var body := result.value.json.value;
              && ("rgb" !in body ==> c == Failure(KeyError))
              && ("rgb" in body && body["rgb"].JInt? ==> c == Failure(TypeError))
              && ("rgb" in body && body["rgb"].JStr? && !IsHexCode(body["rgb"].s) ==> c == Failure(ValueError))
  {
    match result
    case Failure(e) => Failure(e)
    case Success(resp) =>
      match resp.json
      case None => Failure(JsonDecodeError)
      case Some(body) =>
        if "rgb" !in body then Failure(KeyError)
        else match body["rgb"]
          case JInt(_) => Failure(TypeError)
          case JStr(s) => FromHex(s)
  }

  /** What follows the write: `response.json()["message"]` is logged, and
      only a body that is not JSON raises (the KeyError is caught). */
  function WriteOutcome(result: Result<Response, Failure>): (o: Outcome<Failure>)
    ensures o.Pass? <==> result.Success? && result.value.json.Some?
    ensures result.Failure? ==> o == Fail(result.error)
    ensures result.Success? && result.value.json.None? ==> o == Fail(JsonDecodeError)
  {
    match result
    case Failure(e) => Fail(e)
    case Success(resp) => if resp.json.None? then Fail(JsonDecodeError) else Pass
  }

  /** `Painter.size` on the reply to its unthrottled GET: `raise_for_status`,
      then the "width" and "height" fields of the JSON body. */
  function SizeOf(reply: Reply): (r: Result<(int, int), Failure>)
    ensures r.Success? <==>
              reply.Delivered? && IsOk(reply.response.status) && reply.response.json.Some?
              && "width" in reply.response.json.value && reply.response.json.value["width"].JInt?
              && "height" in reply.response.json.value && reply.response.json.value["height"].JInt?
    ensures r.Success? ==> r.value == (reply.response.json.value["width"].i, reply.response.json.value["height"].i)
    ensures reply.Delivered? && !IsOk(reply.response.status) ==> r == Failure(HTTPError(reply.response.status))
    ensures reply.ConnectionError? ==> r == Failure(NetworkError)
  {
    match reply
    case ConnectionError => Failure(NetworkError)
    case Delivered(resp) =>
      if !IsOk(resp.status) then Failure(HTTPError(resp.status))
      else match resp.json
        case None => Failure(JsonDecodeError)
        case Some(body) =>
          if "width" !in body || "height" !in body then Failure(KeyError)
          else if !body["width"].JInt? || !body["height"].JInt? then Failure(TypeError)
          else Success((body["width"].i, body["height"].i))
  }

  // ---------------------------------------------------------------------------
  // The operations as functions

  /** The state of one endpoint: its `_active` flag and its limiter's guard time. */
  datatype Side = Side(active: bool, guard: real)

  /** What `colour` or `sketch` did: the endpoint's new state, the wire, the
      requests sent, and the result. */
  datatype Read<T> = Read(side: Side, wire: Wire, sent: seq<Request>, result: Result<T, Failure>)

  function After(x: Exchange): Side {
    Side(x.active, x.guard)
  }

  /** `Painter.colour(x, y)` on the get_pixel endpoint. */
  function ColourSpec(route: Route, side: Side, wire: Wire, x: int, y: int): Read<Colour> {
    var ex := RequestSpec(route, side.active, side.guard, wire, None, Query(x, y));
    Read(After(ex), ex.wire, ex.sent, ReadColour(ex.result))
  }

  /** What `paint` did: the state of both endpoints, the wire, the requests
      sent, and whether it returned or raised. */
  datatype PaintRun = PaintRun(check: Side, write: Side, wire: Wire, sent: seq<Request>, outcome: Outcome<Failure>)

  /** The write half of `paint`: the JSON body carries the target's hex code. */
  function WriteSpec(route: Route, side: Side, wire: Wire, x: int, y: int, target: Colour)
    : (ex: Exchange)
  {
    RequestSpec(route, side.active, side.guard, wire, None, JsonBody(x, y, Hex(target)))
  }

  /** `Painter.paint(x, y, target, check=True)` on the get_pixel
      (`checkRoute`) and set_pixel (`writeRoute`) endpoints: a colour equal to
      the target returns at once; an HTTP error from the check is swallowed;
      any other error from the check propagates. */
  function CheckedPaintSpec(checkRoute: Route, writeRoute: Route, checkSide: Side, writeSide: Side,
                            wire: Wire, x: int, y: int, target: Colour): PaintRun
  {
    var c := ColourSpec(checkRoute, checkSide, wire, x, y);
    if c.result == Success(target) then
      PaintRun(c.side, writeSide, c.wire, c.sent, Pass)
    else if c.result.Failure? && !IsHTTPError(c.result.error) then
      PaintRun(c.side, writeSide, c.wire, c.sent, Fail(c.result.error))
    else
      var w := WriteSpec(writeRoute, writeSide, c.wire, x, y, target);
      PaintRun(c.side, After(w), w.wire, c.sent + w.sent, WriteOutcome(w.result))
  }

  /** `Painter.paint(x, y, target, check=check)`; without `check` it writes
      straight away. */
  function PaintSpec(checkRoute: Route, writeRoute: Route, checkSide: Side, writeSide: Side,
                     wire: Wire, x: int, y: int, target: Colour, check: bool): PaintRun
  {
    if check then CheckedPaintSpec(checkRoute, writeRoute, checkSide, writeSide, wire, x, y, target)
    else
      var w := WriteSpec(writeRoute, writeSide, wire, x, y, target);
      PaintRun(checkSide, After(w), w.wire, w.sent, WriteOutcome(w.result))
  }

  /** `Painter.sketch`: the get_pixels request, then `size()` as a plain GET
      with the painter's headers, sent without waiting. */
  function SketchSpec(route: Route, headers: map<string, string>, side: Side, wire: Wire): Read<Sketch> {
    var ex := RequestSpec(route, side.active, side.guard, wire, None, NoPayload);
    if ex.result.Failure? then Read(After(ex), ex.wire, ex.sent, Failure(ex.result.error))
    else
      var size := SizeOf(Next(ex.wire.replies));
      var sent := ex.sent + [Request("GET", EndpointUrl("/get_size"), Some(headers), NoPayload, ex.wire.now)];
      var wire := Wire(ex.wire.now, Rest(ex.wire.replies));
      match size
      case Failure(e) => Read(After(ex), wire, sent, Failure(e))
      case Success(wh) => Read(After(ex), wire, sent, Success(Sketch(ex.result.value.content, wh.0, wh.1)))
  }

  // ---------------------------------------------------------------------------
  // The object

  class Painter {
    const headers: map<string, string>
    const getPixel: Endpoint
    const getPixels: Endpoint
    const setPixel: Endpoint

    /** The three endpoints, and their limiters, are separate objects. */
    predicate Valid() {
      getPixel != getPixels && getPixel != setPixel && getPixels != setPixel
      && getPixel.limiter != getPixels.limiter && getPixel.limiter != setPixel.limiter
      && getPixels.limiter != setPixel.limiter
    }

    /** `Painter(token)`, constructed at `now`. */
    constructor (token: string, now: real)
      ensures Valid()
      ensures headers == AuthHeaders(token)
      ensures getPixel.route == Route("GET", EndpointUrl("/get_pixel"), Some(headers))
      ensures getPixels.route == Route("GET", EndpointUrl("/get_pixels"), Some(headers))
      ensures setPixel.route == Route("POST", EndpointUrl("/set_pixel"), Some(headers))
      ensures getPixel.route.url != getPixels.route.url && getPixel.route.url != setPixel.route.url
      ensures getPixels.route.url != setPixel.route.url
      ensures !getPixel.active && !getPixels.active && !setPixel.active
      ensures getPixel.limiter.guardTime == now && getPixels.limiter.guardTime == now
      ensures setPixel.limiter.guardTime == now
      ensures fresh(getPixel) && fresh(getPixels) && fresh(setPixel)
      ensures fresh(getPixel.limiter) && fresh(getPixels.limiter) && fresh(setPixel.limiter)
    {
      headers := AuthHeaders(token);
      getPixel := new Endpoint(Route("GET", EndpointUrl("/get_pixel"), Some(AuthHeaders(token))), now);
      getPixels := new Endpoint(Route("GET", EndpointUrl("/get_pixels"), Some(AuthHeaders(token))), now);
      setPixel := new Endpoint(Route("POST", EndpointUrl("/set_pixel"), Some(AuthHeaders(token))), now);
      EndpointUrlsDistinct();
    }

    method Colour(net: Network, x: int, y: int) returns (c: Result<Colours.Colour, Failure>)
      modifies getPixel, getPixel.limiter, net
      ensures var r := ColourSpec(getPixel.route, old(Side(getPixel.active, getPixel.limiter.guardTime)),
                                  old(net.View()), x, y);
              && Side(getPixel.active, getPixel.limiter.guardTime) == r.side
              && net.View() == r.wire && net.sent == old(net.sent) + r.sent && c == r.result
    {
      var response := getPixel.Request(net, None, Query(x, y));
      c := ReadColour(response);
    }

    method Paint(net: Network, x: int, y: int, target: Colours.Colour, check: bool) returns (o: Outcome<Failure>)
      requires Valid()
      modifies getPixel, getPixel.limiter, setPixel, setPixel.limiter, net
      ensures var run := PaintSpec(getPixel.route, setPixel.route,
                                   old(Side(getPixel.active, getPixel.limiter.guardTime)),
                                   old(Side(setPixel.active, setPixel.limiter.guardTime)),
                                   old(net.View()), x, y, target, check);
              && Side(getPixel.active, getPixel.limiter.guardTime) == run.check
              && Side(setPixel.active, setPixel.limiter.guardTime) == run.write
              && net.View() == run.wire && net.sent == old(net.sent) + run.sent && o == run.outcome
    {
      if check {
        o := CheckedPaint(net, x, y, target);
      } else {
        o := Write(net, x, y, target);
      }
    }

    /** `paint` with `check`: read the pixel first, write only when needed. */
    method CheckedPaint(net: Network, x: int, y: int, target: Colours.Colour) returns (o: Outcome<Failure>)
      requires Valid()
      modifies getPixel, getPixel.limiter, setPixel, setPixel.limiter, net
      ensures var run := CheckedPaintSpec(getPixel.route, setPixel.route,
                                          old(Side(getPixel.active, getPixel.limiter.guardTime)),
                                          old(Side(setPixel.active, setPixel.limiter.guardTime)),
                                          old(net.View()), x, y, target);
              && Side(getPixel.active, getPixel.limiter.guardTime) == run.check
              && Side(setPixel.active, setPixel.limiter.guardTime) == run.write
              && net.View() == run.wire && net.sent == old(net.sent) + run.sent && o == run.outcome
    {
      ghost var before := net.sent;
      ghost var read := ColourSpec(getPixel.route, Side(getPixel.active, getPixel.limiter.guardTime), net.View(), x, y);
      ghost var writeSide := Side(setPixel.active, setPixel.limiter.guardTime);
      var c := Colour(net, x, y);
      if c == Success(target) {
        o := Pass;
      } else if c.Failure? && !IsHTTPError(c.error) {
        o := Fail(c.error);
      } else {
        o := Write(net, x, y, target);
        AppendAssoc(before, read.sent, WriteSpec(setPixel.route, writeSide, read.wire, x, y, target).sent);
      }
    }

    /** The set_pixel request at the end of `paint`. */
    method Write(net: Network, x: int, y: int, target: Colours.Colour) returns (o: Outcome<Failure>)
      modifies setPixel, setPixel.limiter, net
      ensures var w := WriteSpec(setPixel.route, old(Side(setPixel.active, setPixel.limiter.guardTime)),
                                 old(net.View()), x, y, target);
              && Side(setPixel.active, setPixel.limiter.guardTime) == After(w)
              && net.View() == w.wire && net.sent == old(net.sent) + w.sent && o == WriteOutcome(w.result)
    {
      var response := setPixel.Request(net, None, JsonBody(x, y, Hex(target)));
      o := WriteOutcome(response);
    }

    /** `Painter.size`: one GET that bypasses the endpoints and their limiters. */
    method Size(net: Network) returns (r: Result<(int, int), Failure>)
      modifies net
      ensures r == SizeOf(Next(old(net.replies))) && net.View() == Wire(old(net.now), Rest(old(net.replies)))
      ensures net.sent == old(net.sent) + [Request("GET", EndpointUrl("/get_size"), Some(headers), NoPayload, old(net.now))]
    {
      var reply := net.Send("GET", EndpointUrl("/get_size"), Some(headers), NoPayload);
      r := SizeOf(reply);
    }

    method Sketch(net: Network) returns (r: Result<Sketches.Sketch, Failure>)
      modifies getPixels, getPixels.limiter, net
      ensures var s := SketchSpec(getPixels.route, headers, old(Side(getPixels.active, getPixels.limiter.guardTime)),
                                  old(net.View()));
              && Side(getPixels.active, getPixels.limiter.guardTime) == s.side
              && net.View() == s.wire && net.sent == old(net.sent) + s.sent && r == s.result
    {
      var response := getPixels.Request(net, None, NoPayload);
      if response.Failure? {
        return Failure(response.error);
      }
      var size := Size(net);
      if size.Failure? {
        return Failure(size.error);
      }
      r := Success(Sketches.Sketch(response.value.content, size.value.0, size.value.1));
    }
  }

  // ---------------------------------------------------------------------------
  // Laws of the painter

  /** Every request an endpoint sends goes to its own URL. */
  lemma {:induction false} RequestStaysOnRoute(route: Route, active: bool, guard: real, wire: Wire,
                                               call: Option<map<string, string>>, payload: Payload)
    ensures var x := RequestSpec(route, active, guard, wire, call, payload);
            forall i :: 0 <= i < |x.sent| ==> x.sent[i].url == route.url
  {
    ActivationProbes(route, guard, wire);
    DispatchOutcome(route, guard, wire, call, payload);
    var act := Activation(route, guard, wire);
    DispatchOutcome(route, act.guard, act.wire, call, payload);
  }

  /** A request that succeeds sent its payload last, to the endpoint's URL
      with the endpoint's verb. */
  lemma {:induction false} SuccessSentPayload(route: Route, active: bool, guard: real, wire: Wire,
                                              call: Option<map<string, string>>, payload: Payload)
    ensures var x := RequestSpec(route, active, guard, wire, call, payload);
            x.result.Success? ==>
              |x.sent| >= 1 && x.sent[|x.sent| - 1].verb == route.verb
              && x.sent[|x.sent| - 1].url == route.url && x.sent[|x.sent| - 1].payload == payload
  {
    DispatchOutcome(route, guard, wire, call, payload);
    var act := Activation(route, guard, wire);
    DispatchOutcome(route, act.guard, act.wire, call, payload);
  }

  /** With `check`, a pixel that already has the target colour is not
      written: every request goes to get_pixel, the set_pixel endpoint is
      untouched, and `paint` returns normally. */
  lemma {:induction false} PaintShortCircuit(checkRoute: Route, writeRoute: Route, checkSide: Side, writeSide: Side,
                                             wire: Wire, x: int, y: int, target: Colour)
    requires ColourSpec(checkRoute, checkSide, wire, x, y).result == Success(target)
    ensures var run := PaintSpec(checkRoute, writeRoute, checkSide, writeSide, wire, x, y, target, true);
            && run.outcome == Pass && run.write == writeSide
            && forall i :: 0 <= i < |run.sent| ==> run.sent[i].url == checkRoute.url
  {
    RequestStaysOnRoute(checkRoute, checkSide.active, checkSide.guard, wire, None, Query(x, y));
  }

  /** An HTTP error from the check (a 429 among them) is swallowed: `paint`
      goes on to the write exactly as if it had been called without `check`
      once the check's requests were done. */
  lemma PaintSwallowsHttpError(checkRoute: Route, writeRoute: Route, checkSide: Side, writeSide: Side,
                               wire: Wire, x: int, y: int, target: Colour)
    requires var c := ColourSpec(checkRoute, checkSide, wire, x, y);
             c.result.Failure? && IsHTTPError(c.result.error)
    ensures var c := ColourSpec(checkRoute, checkSide, wire, x, y);
            var run := PaintSpec(checkRoute, writeRoute, checkSide, writeSide, wire, x, y, target, true);
            var unchecked := PaintSpec(checkRoute, writeRoute, c.side, writeSide, c.wire, x, y, target, false);
            run == unchecked.(sent := c.sent + unchecked.sent)
  {
  }

  /** Any other error from the check propagates, and no write is attempted. */
  lemma PaintPropagatesOtherErrors(checkRoute: Route, writeRoute: Route, checkSide: Side, writeSide: Side,
                                   wire: Wire, x: int, y: int, target: Colour)
    requires var c := ColourSpec(checkRoute, checkSide, wire, x, y);
             c.result.Failure? && !IsHTTPError(c.result.error)
    ensures var c := ColourSpec(checkRoute, checkSide, wire, x, y);
            var run := PaintSpec(checkRoute, writeRoute, checkSide, writeSide, wire, x, y, target, true);
            run.outcome == Fail(c.result.error) && run.write == writeSide && run.sent == c.sent
  {
  }

  /** A successful write sent the target's upper-case hex code to set_pixel
      last; without `check` the get_pixel endpoint is never touched. */
  lemma {:induction false} PaintWrites(checkRoute: Route, writeRoute: Route, checkSide: Side, writeSide: Side,
                                       wire: Wire, x: int, y: int, target: Colour, check: bool)
    ensures var run := PaintSpec(checkRoute, writeRoute, checkSide, writeSide, wire, x, y, target, check);
            && (!check ==> run.check == checkSide
                           && forall i :: 0 <= i < |run.sent| ==> run.sent[i].url == writeRoute.url)
            && (run.outcome.Pass? && !(check && ColourSpec(checkRoute, checkSide, wire, x, y).result == Success(target)) ==>
                  |run.sent| >= 1 && run.sent[|run.sent| - 1].url == writeRoute.url
                  && run.sent[|run.sent| - 1].payload == JsonBody(x, y, Hex(target)))
  {
    var c := ColourSpec(checkRoute, checkSide, wire, x, y);
    var w0 := if check then c.wire else wire;
    var s0 := writeSide;
    SuccessSentPayload(writeRoute, s0.active, s0.guard, w0, None, JsonBody(x, y, Hex(target)));
    RequestStaysOnRoute(writeRoute, s0.active, s0.guard, wire, None, JsonBody(x, y, Hex(target)));
  }

  /** A colour read through the API is a byte colour, and what `paint` sends
      for it reads back as the same colour. */
  lemma ColourRoundTrip(route: Route, side: Side, wire: Wire, x: int, y: int)
    requires ColourSpec(route, side, wire, x, y).result.Success?
    ensures var c := ColourSpec(route, side, wire, x, y).result.value;
            IsByteColour(c) && FromHex(Hex(c)) == Success(c)
  {
    FromHexAfterHex(ColourSpec(route, side, wire, x, y).result.value);
  }

  /** A sketch holds exactly the bytes get_pixels returned and the dimensions
      get_size reported. */
  lemma {:induction false} SketchContents(route: Route, headers: map<string, string>, side: Side, wire: Wire)
    ensures var s := SketchSpec(route, headers, side, wire);
            var ex := RequestSpec(route, side.active, side.guard, wire, None, NoPayload);
            s.result.Success? <==> ex.result.Success? && SizeOf(Next(ex.wire.replies)).Success?
    ensures var s := SketchSpec(route, headers, side, wire);
            var ex := RequestSpec(route, side.active, side.guard, wire, None, NoPayload);
            s.result.Success? ==>
              var size := SizeOf(Next(ex.wire.replies)).value;
              s.result.value == Sketch(ex.result.value.content, size.0, size.1)
              && |s.sent| == |ex.sent| + 1 && s.sent[|ex.sent|].url == EndpointUrl("/get_size")
  {
  }
}
