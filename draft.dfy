/** The earlier client of hnpixels/hnpixels.py, as written: its `Colour.from_hex`
    parses each hex pair with `int(pair, 16)`, its `Sketch` lookup neither
    scales the offset by three nor wraps negative coordinates, and its
    `Painter` throttles each call with one of three limiters that it
    reloads from the `requests-remaining`, misspelt `reqeusts-limit` and
    `requests-reset` headers, with no fallback. `Colour.hex`, the
    `Ratelimiter` and `size` are the same code as in hnpixels/core.py and
    are shared with that model. */
module Draft {
  import opened Wrappers
  import opened Failures
  import opened Colours
  import opened Sketches
  import opened Limiting
  import opened Http
  import Endpoints
  import Painters

  // ---------------------------------------------------------------------------
  // Colour.from_hex

  /** The whitespace `int()` skips around the digits of an ASCII string:
      space, tab, line feed, vertical tab, form feed and carriage return. */
  predicate IsSpace(c: char) {
    c == ' ' || '\t' <= c <= '\r'
  }

  /** `int(p, 16)` for a two-character string `p`: two hex digits, or one
      digit with surrounding whitespace stripped, or one digit after a sign. */
  function PairInt(p: string): (r: Result<int, Failure>)
    requires |p| == 2
    ensures r.Failure? ==> r.error == ValueError
    ensures IsHexDigit(p[0]) && IsHexDigit(p[1]) ==> r == Success(PairValue(p[0], p[1]))
    ensures r.Success? ==> -16 < r.value < 256
    ensures r.Success? && r.value < 0 ==> p[0] == '-'
  {
    if IsHexDigit(p[0]) && IsHexDigit(p[1]) then Success(PairValue(p[0], p[1]))
    else if IsSpace(p[0]) && IsHexDigit(p[1]) then Success(DigitValue(p[1]))
    else if IsHexDigit(p[0]) && IsSpace(p[1]) then Success(DigitValue(p[0]))
    else if p[0] == '+' && IsHexDigit(p[1]) then Success(DigitValue(p[1]))
    else if p[0] == '-' && IsHexDigit(p[1]) then Success(-(DigitValue(p[1]) as int))
    else Failure(ValueError)
  }

  /** The draft `Colour.from_hex`: a length other than six is a ValueError,
      then each of `s[0:2]`, `s[2:4]`, `s[4:6]` goes through `int(pair, 16)`. */
  function FromHex(s: string): (r: Result<Colour, Failure>)
    ensures |s| != 6 ==> r == Failure(ValueError)
    ensures r.Failure? ==> r.error == ValueError
    ensures r.Success? ==> |s| == 6 && PairInt(s[0..2]) == Success(r.value.r)
                           && PairInt(s[2..4]) == Success(r.value.g) && PairInt(s[4..6]) == Success(r.value.b)
    ensures |s| == 6 && PairInt(s[0..2]).Success? && PairInt(s[2..4]).Success? && PairInt(s[4..6]).Success? ==>
              r == Success(Colour(PairInt(s[0..2]).value, PairInt(s[2..4]).value, PairInt(s[4..6]).value))
  {
    if |s| != 6 then Failure(ValueError)
    else
      match (PairInt(s[0..2]), PairInt(s[2..4]), PairInt(s[4..6]))
      case (Success(r), Success(g), Success(b)) => Success(Colour(r, g, b))
      case _ => Failure(ValueError)
  }

  /** On six hex digits the draft agrees with `bytes.fromhex` in
      hnpixels/core.py, so `from_hex(s).hex() == s.upper()` holds for it too. */
  lemma {:induction false} FromHexOnHexCodes(s: string)
    requires IsHexCode(s)
    ensures FromHex(s) == Colours.FromHex(s)
    ensures FromHex(s).Success? && Hex(FromHex(s).value) == Upper(s)
  {
    assert s[0..2][0] == s[0] && s[0..2][1] == s[1];
    assert s[2..4][0] == s[2] && s[2..4][1] == s[3];
    assert s[4..6][0] == s[4] && s[4..6][1] == s[5];
    HexAfterFromHex(s);
  }

  /** A sign slips through `int(pair, 16)`: "+10000" is read as (1, 0, 0),
      whose hex code "010000" is not the input, and "-10000" yields a negative
      channel. The `bytes.fromhex` version refuses both. */
  lemma SignedPairAccepted()
    ensures FromHex("+10000") == Success(Colour(1, 0, 0))
    ensures Hex(Colour(1, 0, 0)) == "010000" != Upper("+10000")
    ensures FromHex("-10000") == Success(Colour(-1, 0, 0)) && !IsByteColour(Colour(-1, 0, 0))
    ensures Colours.FromHex("+10000") == Failure(ValueError) && Colours.FromHex("-10000") == Failure(ValueError)
  {
    assert "+10000"[0..2] == "+1" && "+10000"[2..4] == "00" && "+10000"[4..6] == "00";
    assert "-10000"[0..2] == "-1" && "-10000"[2..4] == "00" && "-10000"[4..6] == "00";
    assert !IsHexDigit("+10000"[0]) && !IsHexDigit("-10000"[0]);
    FormatByte(1);
    FormatByte(0);
  }

  /** `int(pair, 16)` skips ASCII whitespace around a single digit, but not
      the ASCII separators 0x1c..0x1f, and not two signs or two blanks. */
  lemma PairWhitespace()
    ensures PairInt(" a") == Success(10) && PairInt("a\n") == Success(10) && PairInt("\tF") == Success(15)
    ensures PairInt(['\U{1c}', '1']) == Failure(ValueError) && PairInt(['1', '\U{1f}']) == Failure(ValueError)
    ensures PairInt("  ") == Failure(ValueError) && PairInt("+-") == Failure(ValueError)
  {
  }

  // ---------------------------------------------------------------------------
  // Sketch.__getitem__

  /** The draft lookup: `Colour(*content[i:i+3])` with `i = x + width * y`;
      a slice shorter than three bytes leaves `Colour` short of arguments. */
  function Lookup(sk: Sketch, x: int, y: int): (r: Result<Colour, Failure>)
    ensures r.Failure? ==> r.error == TypeError
    ensures var i := x + sk.width * y;
            0 <= i && i + 3 <= |sk.content| ==>
              r == Success(Colour(sk.content[i], sk.content[i + 1], sk.content[i + 2]))
    ensures var i := x + sk.width * y;
            0 <= i && |sk.content| < i + 3 ==> r == Failure(TypeError)
  {
    var index := x + sk.width * y;
    var bytes := Slice(sk.content, index, index + 3);
    SliceBounds(sk.content, index, index + 3);
    if |bytes| == 3 then Success(Colour(bytes[0], bytes[1], bytes[2])) else Failure(TypeError)
  }

  /** The unscaled offset reads across pixel boundaries: on a 2x1 canvas
      holding (1, 2, 3) and (4, 5, 6), pixel (1, 0) comes out as (2, 3, 4),
      where the scaled lookup of hnpixels/core.py returns (4, 5, 6). */
  lemma MisalignedLookup()
    ensures var sk := Sketch([1, 2, 3, 4, 5, 6], 2, 1);
            && Lookup(sk, 1, 0) == Success(Colour(2, 3, 4))
            && Sketches.Lookup(sk, 1, 0) == Success(Colour(4, 5, 6))
  {
    var sk := Sketch([1, 2, 3, 4, 5, 6], 2, 1);
    LookupInside(sk, 1, 0);
  }

  /** The two lookups agree at the origin pixel; elsewhere the draft reads
      from byte `k` rather than from byte `3 * k` of pixel `k`. */
  lemma {:induction false} LookupsAgreeAtOrigin(sk: Sketch)
    requires WellFormed(sk) && sk.width > 0 && sk.height > 0
    ensures Lookup(sk, 0, 0) == Sketches.Lookup(sk, 0, 0) == Success(PixelAt(sk, 0))
  {
    LookupInside(sk, 0, 0);
    assert sk.width * sk.height >= 1 by {
      assert sk.width * sk.height >= sk.width * 1;
    }
  }

  /** No wraparound, on a 2x1 canvas: `x = -1` on the top row reads from the
      end of the buffer only through Python's negative slice start, and
      `content[-1:2]` is empty, where hnpixels/core.py returns the last pixel
      of the row. */
  lemma NoWraparound()
    ensures var sk := Sketch([1, 2, 3, 4, 5, 6], 2, 1);
            && Lookup(sk, -1, 0) == Failure(TypeError)
            && Sketches.Lookup(sk, -1, 0) == Success(Colour(4, 5, 6))
  {
  }

  /** Negative coordinates are not wrapped; a negative unscaled offset
      `i = x + width * y` reaches only Python's negative slice bounds. From -3
      to -1 the slice `content[i:i+3]` ends at or before the start and is too
      short, so the lookup fails. From -4 down to `-len(content)` it silently
      reads the three bytes that start `-i` bytes before the end of the
      buffer. Further down, the slice is again too short. */
  lemma NegativeOffset(sk: Sketch, x: int, y: int)
    requires x + sk.width * y < 0
    ensures var i, n := x + sk.width * y, |sk.content|;
            && (-3 <= i ==> Lookup(sk, x, y) == Failure(TypeError))
            && (-n <= i <= -4 ==>
                  Lookup(sk, x, y) == Success(Colour(sk.content[n + i], sk.content[n + i + 1], sk.content[n + i + 2])))
            && (i < -n ==> Lookup(sk, x, y) == Failure(TypeError))
  {
    var i, n := x + sk.width * y, |sk.content|;
    if -n <= i <= -4 {
      assert Slice(sk.content, i, i + 3) == sk.content[n + i..n + i + 3];
    }
  }

  // ---------------------------------------------------------------------------
  // update_ratelimiter and the throttled calls

  /** The draft `update_ratelimiter`: the three keys, one of them misspelt,
      are read in order and any missing one is a KeyError; there is no
      fallback. */
  function ParseLimits(h: Headers): (r: Result<Limits, Failure>)
    ensures r.Success? <==> "requests-remaining" in h && "reqeusts-limit" in h && "requests-reset" in h
    ensures r.Failure? ==> r.error == KeyError
    ensures r.Success? ==> r.value == Limits(h["requests-remaining"], h["reqeusts-limit"], h["requests-reset"])
  {
    if "requests-remaining" !in h then Failure(KeyError)
    else if "reqeusts-limit" !in h then Failure(KeyError)
    else if "requests-reset" !in h then Failure(KeyError)
    else Success(Limits(h["requests-remaining"], h["reqeusts-limit"], h["requests-reset"]))
  }

  /** What one throttled call did: the limiter's new guard, the wire, the
      request it sent, and the response or the error. */
  datatype Call = Call(guard: real, wire: Wire, request: Request, result: Result<Response, Failure>)

  /** `lock`, the request with the painter's headers, `raise_for_status`, and
      `update_ratelimiter` on the limiter the call uses. */
  function Throttled(guard: real, wire: Wire, verb: string, url: string, headers: map<string, string>, payload: Payload)
    : (c: Call)
    ensures c.request == Request(verb, url, Some(headers), payload, wire.now + Wait(guard, wire.now))
    ensures c.request.at >= guard && c.wire == Wire(c.request.at, Rest(wire.replies))
    ensures c.result.Failure? ==> c.guard == guard
  {
    var at := wire.now + Wait(guard, wire.now);
    var request := Request(verb, url, Some(headers), payload, at);
    var next := Wire(at, Rest(wire.replies));
    match Next(wire.replies)
    case ConnectionError => Call(guard, next, request, Failure(NetworkError))
    case Delivered(resp) =>
      if !IsOk(resp.status) then Call(guard, next, request, Failure(HTTPError(resp.status)))
      else match ParseLimits(resp.headers)
        case Failure(e) => Call(guard, next, request, Failure(e))
        case Success(l) => Call(Unlocked(guard, l.remaining, l.reset, at), next, request, Success(resp))
  }

  /** `pixel`: the colour in the body, read with the draft `from_hex`. */
  function ReadColour(result: Result<Response, Failure>): (c: Result<Colour, Failure>)
    ensures result.Failure? ==> c == Failure(result.error)
    ensures c.Success? ==> result.Success? && result.value.json.Some? && "rgb" in result.value.json.value
                           && result.value.json.value["rgb"].JStr?
                           && c == FromHex(result.value.json.value["rgb"].s)
    ensures result.Success? && result.value.json.None? ==> c == Failure(JsonDecodeError)
    ensures result.Success? && result.value.json.Some? ==>
              var body := result.value.json.value;
              && ("rgb" !in body ==> c == Failure(KeyError))
              && ("rgb" in body && body["rgb"].JInt? ==> c == Failure(TypeError))
              && ("rgb" in body && body["rgb"].JStr? ==> c == FromHex(body["rgb"].s))
  {
    match result
    case Failure(e) => Failure(e)
    case Success(resp) =>
      match resp.json
      case None => Failure(JsonDecodeError)
      case Some(body) =>
        if "rgb" !in body then Failure(KeyError)
        else match body["rgb"]
          case JInt(_) => Failure(TypeError)
          case JStr(s) => FromHex(s)
  }

  /** The three limiters' guard times. */
  datatype Guards = Guards(pixel: real, paint: real, canvas: real)

  /** What `sketch` did: the guards, the wire, the two requests (get_pixels
      and, when that succeeded, get_size), and the result. */
  datatype SketchRun = SketchRun(guard: real, wire: Wire, sent: seq<Request>, result: Result<Sketch, Failure>)

  function SketchSpec(guard: real, wire: Wire, headers: map<string, string>): SketchRun {
    var c := Throttled(guard, wire, "GET", Painters.EndpointUrl("/get_pixels"), headers, NoPayload);
    if c.result.Failure? then SketchRun(c.guard, c.wire, [c.request], Failure(c.result.error))
    else
      var sizeRequest := Request("GET", Painters.EndpointUrl("/get_size"), Some(headers), NoPayload, c.wire.now);
      var wire' := Wire(c.wire.now, Rest(c.wire.replies));
      match Painters.SizeOf(Next(c.wire.replies))
      case Failure(e) => SketchRun(c.guard, wire', [c.request, sizeRequest], Failure(e))
      case Success(wh) =>
        SketchRun(c.guard, wire', [c.request, sizeRequest], Success(Sketch(c.result.value.content, wh.0, wh.1)))
  }

  // ---------------------------------------------------------------------------
  // The object

  class Painter {
    const headers: map<string, string>
    const pixelLimiter: Ratelimiter
    const setLimiter: Ratelimiter
    const canvasLimiter: Ratelimiter

    predicate Valid() {
      pixelLimiter != setLimiter && pixelLimiter != canvasLimiter && setLimiter != canvasLimiter
    }

    function GuardTimes(): Guards
      reads pixelLimiter, setLimiter, canvasLimiter
    {
      Guards(pixelLimiter.guardTime, setLimiter.guardTime, canvasLimiter.guardTime)
    }

    /** `Painter(token)` at `now`: three limiters, none of them warming up. */
    constructor (token: string, now: real)
      ensures Valid() && headers == Painters.AuthHeaders(token)
      ensures GuardTimes() == Guards(now, now, now)
      ensures fresh(pixelLimiter) && fresh(setLimiter) && fresh(canvasLimiter)
    {
      headers := Painters.AuthHeaders(token);
      pixelLimiter := new Ratelimiter(now, 0.0);
      setLimiter := new Ratelimiter(now, 0.0);
      canvasLimiter := new Ratelimiter(now, 0.0);
    }

    method UpdateRatelimiter(limiter: Ratelimiter, h: Headers, now: real) returns (o: Outcome<Failure>)
      modifies limiter
      ensures var p := ParseLimits(h);
              && (p.Success? ==> o == Pass && limiter.guardTime ==
                                   Unlocked(old(limiter.guardTime), p.value.remaining, p.value.reset, now))
              && (p.Failure? ==> o == Fail(p.error) && limiter.guardTime == old(limiter.guardTime))
    {
      if "requests-remaining" !in h || "reqeusts-limit" !in h || "requests-reset" !in h {
        return Fail(KeyError);
      }
      limiter.Unlock(h["requests-remaining"], h["reqeusts-limit"], h["requests-reset"], now);
      return Pass;
    }

    /** The lines each of `pixel`, `paint` and `sketch` repeats. */
    method Call(limiter: Ratelimiter, net: Network, verb: string, url: string, payload: Payload)
      returns (r: Result<Response, Failure>)
      modifies limiter, net
      ensures var c := Throttled(old(limiter.guardTime), old(net.View()), verb, url, headers, payload);
              && limiter.guardTime == c.guard && net.View() == c.wire
              && net.sent == old(net.sent) + [c.request] && r == c.result
    {
      var wait := limiter.Lock(net.now);
      net.Sleep(wait);
      var reply := net.Send(verb, url, Some(headers), payload);
      if reply.ConnectionError? {
        return Failure(NetworkError);
      }
      var response := reply.response;
      if !IsOk(response.status) {
        return Failure(HTTPError(response.status));
      }
      var o := UpdateRatelimiter(limiter, response.headers, net.now);
      r := if o.Pass? then Success(response) else Failure(o.error);
    }

    method Pixel(net: Network, x: int, y: int) returns (c: Result<Colour, Failure>)
      requires Valid()
      modifies pixelLimiter, net
      ensures var call := Throttled(old(pixelLimiter.guardTime), old(net.View()), "GET",
                                    Painters.EndpointUrl("/get_pixel"), headers, Query(x, y));
              && GuardTimes() == old(GuardTimes()).(pixel := call.guard)
              && net.View() == call.wire && net.sent == old(net.sent) + [call.request]
              && c == ReadColour(call.result)
    {
      var response := Call(pixelLimiter, net, "GET", Painters.EndpointUrl("/get_pixel"), Query(x, y));
      c := ReadColour(response);
    }

    method Paint(net: Network, x: int, y: int, colour: Colour) returns (o: Outcome<Failure>)
      requires Valid()
      modifies setLimiter, net
      ensures var call := Throttled(old(setLimiter.guardTime), old(net.View()), "POST",
                                    Painters.EndpointUrl("/set_pixel"), headers, FormBody(x, y, Hex(colour)));
              && GuardTimes() == old(GuardTimes()).(paint := call.guard)
              && net.View() == call.wire && net.sent == old(net.sent) + [call.request]
              && o == (if call.result.Success? then Pass else Fail(call.result.error))
    {
      var response := Call(setLimiter, net, "POST", Painters.EndpointUrl("/set_pixel"), FormBody(x, y, Hex(colour)));
      o := if response.Success? then Pass else Fail(response.error);
    }

    method Size(net: Network) returns (r: Result<(int, int), Failure>)
      modifies net
      ensures r == Painters.SizeOf(Next(old(net.replies))) && net.View() == Wire(old(net.now), Rest(old(net.replies)))
      ensures net.sent == old(net.sent) + [Request("GET", Painters.EndpointUrl("/get_size"), Some(headers), NoPayload, old(net.now))]
    {
      var reply := net.Send("GET", Painters.EndpointUrl("/get_size"), Some(headers), NoPayload);
      r := Painters.SizeOf(reply);
    }

    method Sketch(net: Network) returns (r: Result<Sketches.Sketch, Failure>)
      requires Valid()
      modifies canvasLimiter, net
      ensures var s := SketchSpec(old(canvasLimiter.guardTime), old(net.View()), headers);
              && GuardTimes() == old(GuardTimes()).(canvas := s.guard)
              && net.View() == s.wire && net.sent == old(net.sent) + s.sent && r == s.result
    {
      var response := Call(canvasLimiter, net, "GET", Painters.EndpointUrl("/get_pixels"), NoPayload);
      if response.Failure? {
        return Failure(response.error);
      }
      var size := Size(net);
      if size.Failure? {
        return Failure(size.error);
      }
      r := Success(Sketches.Sketch(response.value.content, size.value.0, size.value.1));
    }
  }

  // ---------------------------------------------------------------------------
  // Laws of the draft painter

  /** A failing status raises HTTPError before the limiter is reloaded; a
      success reloads it, cooling down only when no requests remain. */
  lemma {:induction false} ThrottledOutcome(guard: real, wire: Wire, verb: string, url: string,
                                            headers: map<string, string>, payload: Payload)
    ensures var c := Throttled(guard, wire, verb, url, headers, payload);
            var reply := Next(wire.replies);
            && (reply.Delivered? && !IsOk(reply.response.status) ==>
                  c.result == Failure(HTTPError(reply.response.status)) && c.guard == guard)
            && (c.result.Success? ==>
                  reply.Delivered? && IsOk(reply.response.status) && c.result.value == reply.response
                  && (c.guard == if reply.response.headers["requests-remaining"] == 0.0
                                 then c.request.at + reply.response.headers["requests-reset"] else guard))
  {
  }

  /** The misspelt key: a reply carrying the headers the service sends
      (`requests-limit` spelt correctly, no `reqeusts-limit`) makes every
      successful draft call raise KeyError with the limiter untouched, where
      hnpixels/core.py reads the same headers without error. */
  lemma {:induction false} MisspeltLimitKey(guard: real, wire: Wire, verb: string, url: string,
                                            headers: map<string, string>, payload: Payload)
    requires wire.replies != [] && wire.replies[0].Delivered?
    requires var resp := wire.replies[0].response;
             IsOk(resp.status) && Endpoints.Keys(Endpoints.RequestsTriple) <= resp.headers.Keys
             && "reqeusts-limit" !in resp.headers
    ensures var c := Throttled(guard, wire, verb, url, headers, payload);
            c.result == Failure(KeyError) && c.guard == guard
    ensures Endpoints.SelectLimits(wire.replies[0].response.headers).Success?
  {
    assert Next(wire.replies) == wire.replies[0];
    var h := wire.replies[0].response.headers;
    assert "requests-remaining" in h && "requests-limit" in h && "requests-reset" in h by {
      assert Endpoints.Keys(Endpoints.RequestsTriple) == {"requests-remaining", "requests-limit", "requests-reset"};
    }
  }

  /** The draft has no fallback: a cooldown-only 429-style header set that
      hnpixels/core.py accepts is a KeyError here. */
  lemma NoFallback(h: Headers)
    requires "requests-remaining" !in h && "cooldown-reset" in h
    ensures ParseLimits(h) == Failure(KeyError)
    ensures Endpoints.SelectLimits(h) == Success(Limits(0.0, 0.0, h["cooldown-reset"]))
  {
  }

  /** A sketch is the get_pixels body with the get_size dimensions; the
      get_size call goes out without waiting once get_pixels succeeded. */
  lemma {:induction false} SketchContents(guard: real, wire: Wire, headers: map<string, string>)
    ensures var s := SketchSpec(guard, wire, headers);
            var c := Throttled(guard, wire, "GET", Painters.EndpointUrl("/get_pixels"), headers, NoPayload);
            && (s.result.Success? <==> c.result.Success? && Painters.SizeOf(Next(c.wire.replies)).Success?)
            && (s.result.Success? ==>
                  var wh := Painters.SizeOf(Next(c.wire.replies)).value;
                  s.result.value == Sketch(c.result.value.content, wh.0, wh.1)
                  && |s.sent| == 2 && s.sent[1].at == s.sent[0].at)
  {
  }
}
