# hnpixels client core in Dafny

This project models the client library for the Python Discord Pixels canvas,
a shared pixel canvas behind a rate-limited HTTP API. Three source files are
modelled:

- `hnpixels/core.py`, the client:
  - `Colour` (hex and triple conversions, channel access);
  - `Sketch` (a row-major snapshot of the canvas, three bytes per pixel, with
    one wraparound for negative coordinates);
  - `Ratelimiter` (a guard time before which no request may go out);
  - `Endpoint` (a URL with default headers, its own limiter, and a HEAD
    activation probe that is retried once after an HTTP 429);
  - `Painter` (colour lookup, check-before-write `paint`, `size`, `sketch`).
- `hnpixels/hnpixels.py`, an earlier version of the same client, modelled as
  written. Its `Sketch` lookup does not scale the offset by three. Its header
  key is misspelt. It has no header fallback. It parses hex codes with
  `int(pair, 16)`.
- `hnpixels/protector.py`, one circuit of the `Protector`. For each job in
  order it fetches the canvas and scans the job's image row by row. For every
  opaque pixel whose canvas colour differs from the goal, it paints the pixel
  and fetches the canvas again.

Layout, one module per file:

| file | module | contents |
|---|---|---|
| `wrappers.dfy` | `Wrappers` | `Option`, `Result`, `Outcome` |
| `failures.dfy` | `Failures` | the exceptions, and which of them `except requests.HTTPError` catches |
| `colours.dfy` | `Colours` | `Colour` |
| `sketches.dfy` | `Sketches` | `Sketch`, with Python slice semantics |
| `limiting.dfy` | `Limiting` | `Ratelimiter` as a class over `guardTime` |
| `http.dfy` | `Http` | responses, and a scripted `Network` that stands in for `requests` and the clock |
| `endpoints.dfy` | `Endpoints` | `Endpoint`, as a class and as pure functions |
| `painter.dfy` | `Painters` | the `Painter` of `core.py` |
| `draft.dfy` | `Draft` | the `Colour`, `Sketch` and `Painter` of `hnpixels.py` |
| `protection.dfy` | `Protection` | `Job` and one circuit of `Protector.activate` |

The stateful objects are classes whose methods are proved against pure
specification functions:

- `Endpoint.Request` is tied to `RequestSpec`.
- `Painter.Paint` is tied to `PaintSpec`, through `CheckedPaint` and `Write`.
- `Protector.Circuit` is tied to `CircuitSpec`.

Each method's `ensures` states the object's new fields, the new clock, the
remaining replies, and the requests it sent, in terms of that function. The
lemmas then state what the source promises about the functions.

Transport and time:

- `Network.Send` answers each call with the next reply from a script. Once
  the script is used up, every call is a connection error.
- `Network.now` is the clock. Only a rate-limiter sleep advances it.
  Transport calls take no time.
- `Ratelimiter.Lock` returns the duration that `lock` would sleep, and the
  caller passes it to `Network.Sleep`.

The `Ratelimiter` in `hnpixels.py` is the same code as in `core.py`, so both
models share `Limiting.Ratelimiter`. `Colour.hex` and `size` are shared the
same way.

`hnpixels/protector.py` runs one method with nested loops. Here it is split
into one method per loop level, plus the loop body: `Protector.Circuit`
for the jobs, `Protector.Pass` for one job's fetch, `Protector.Rows` for the
rows, and `Protector.Row` for the pixels of a row, whose body is
`Protector.Check`.

Three behaviours of the code that a reader might not expect:

- `protector.py` has no `try`: an error from `sketch()`, from `paint()` or
  from a sketch lookup ends the circuit. `Protection.CircuitAbsorbs` states
  this.
- `protector.py` adds a job's origin to the pixel offset and does not
  resolve it against the canvas size. Negative coordinates are left to
  `Sketch.__getitem__`, which wraps them once.
- After a 429, `Endpoint.activate` sends the second HEAD at once, without
  calling `lock`: both probes carry the same timestamp
  (`Endpoints.ActivationProbes`).

## Model

| member | source | states |
|---|---|---|
| `Colours.FromTriple` | hnpixels/core.py:39-47 | succeeds exactly on three elements and keeps them in order; anything else is ValueError |
| `Colours.Tuple` | hnpixels/core.py:49-54 | three channels, which `from_triple` turns back into the same colour |
| `Colours.FromHex` | hnpixels/core.py:25-32 | succeeds exactly on six hex digits, giving a byte colour; every other string (wrong length, non-hex, whitespace) is ValueError |
| `Colours.Channel` | hnpixels/core.py:56-66 | IndexError exactly when the index is above 2 or below -3; otherwise the tuple element, with negative indices counting from the end |
| `Colours.Format` | hnpixels/core.py:35 | `f"{ch:0>2x}"` is at least two characters wide; `FormatByte` gives its exact value on a byte |
| `Colours.Hex` | hnpixels/core.py:34-36 | `hex()` is at least six characters, already upper case; `HexOfByteColour` gives its exact value on a byte colour |
| `Colours.FormatByte` | hnpixels/core.py:34-36 | the contract of `Format` on a byte: `f"{ch:0>2x}"` writes exactly two lower-case hex digits, high nibble first |
| `Colours.HexOfByteColour` | hnpixels/core.py:34-36 | the contract of `Hex` on a byte colour: six upper-case digits, two per channel, high nibble first |
| `Colours.HexAfterFromHex` | hnpixels/core.py:25-37 | for six hex digits `s`, `from_hex(s).hex() == s.upper()` |
| `Colours.FromHexAfterHex` | hnpixels/core.py:25-37 | a byte colour survives `hex` followed by `from_hex` |
| `Colours.TripleRoundTrip` | hnpixels/core.py:39-54 | `from_triple(c.tuple()) == c`; a triple of another length is refused |
| `Colours.NegativeChannel` | hnpixels/core.py:56-66 | index `i - 3` names the same channel as `i` |
| `Sketches.Clamp` | hnpixels/core.py:95 | a slice bound lands within the sequence: negative bounds count from the end |
| `Sketches.Slice` | hnpixels/core.py:95 | a Python slice never fails and is at most as long as the sequence |
| `Sketches.SliceBounds` | hnpixels/core.py:95 | in-range bounds give the plain subsequence; a negative start within one length counts from the end; a start at or past the end gives the empty slice |
| `Sketches.Lookup` | hnpixels/core.py:81-95 | lookup fails only with ValueError (a short slice), and on success gives a byte colour |
| `Sketches.LookupInside` | hnpixels/core.py:87-95 | inside the canvas, lookup returns pixel `x + width * y` of the row-major buffer, read at byte offset `(x + width * y) * 3` |
| `Sketches.LookupDefined` | hnpixels/core.py:87-95 | within one wraparound, lookup succeeds exactly when the wrapped row-major index is below `width * height` |
| `Sketches.WrapOnce` | hnpixels/core.py:88-92 | within one extent, lookup equals lookup at the wrapped coordinates: each negative coordinate, whatever the other is, names the same pixel as that coordinate plus its extent, so `sketch[-1, 0] == sketch[width-1, 0]` and `sketch[-1, -1] == sketch[width-1, height-1]` |
| `Sketches.RowOverflow` | hnpixels/core.py:93-95 | `x + width` on row `y` reads pixel `x` of row `y + 1`, because nothing checks `x < width` |
| `Sketches.SecondWrapRefused` | hnpixels/core.py:88-95 | on the top row of a 2x2 canvas, a coordinate below `-width` is wrapped only once and fails with ValueError |
| `Sketches.SecondWrapPreviousRow` | hnpixels/core.py:88-95 | below the top row, an `x` between `-2 * width` and `-width` is wrapped once and reads the pixel at `x + 2 * width` on the row above |
| `Sketches.TwoByTwo` | hnpixels/core.py:81-95 | the row-major layout on a concrete 2x2 canvas, `(-1, -1)` included |
| `Limiting.Wait` | hnpixels/core.py:123-128 | the sleep ends exactly at the guard time when that is still ahead; otherwise there is no sleep |
| `Limiting.Ratelimiter.constructor` | hnpixels/core.py:104-108 | the guard time starts at `now + warmup` |
| `Limiting.Ratelimiter.Unlock` | hnpixels/core.py:113-121 | with `remaining == 0` the guard becomes `now + reset`; any other `remaining` leaves it unchanged; `limit` is never read |
| `Limiting.Ratelimiter.Lock` | hnpixels/core.py:123-128 | the wait is `Wait(guard, now)`: non-negative, ending at or after the guard time (exactly at it when it was ahead); the guard time is not changed |
| `Limiting.CooldownThenLock` | hnpixels/core.py:113-128 | after `unlock(0, _, reset)` at `t`, a `lock` at `t + d` sleeps `reset - d` |
| `Limiting.RemainingKeepsLockOpen` | hnpixels/core.py:113-128 | with requests remaining and the guard already passed, a later `lock` does not sleep |
| `Http.Network.Send` | hnpixels/core.py:248-254 | one transport call: the next scripted reply, recorded with the time it was sent; the clock does not move |
| `Http.Network.Sleep` | hnpixels/core.py:126-128 | `time.sleep` advances the clock by the duration and nothing else |
| `Endpoints.FirstComplete` | hnpixels/core.py:179-198 | reference search: the first header set in priority order whose keys are all present, or none when no set is complete |
| `Endpoints.SelectLimits` | hnpixels/core.py:179-198 | the try/except chain fails only with KeyError, and only when neither fallback header is present |
| `Endpoints.SelectLimitsAgrees` | hnpixels/core.py:179-198 | the try/except chain is exactly the priority search: the complete `requests-*` triple, else `cooldown-reset`, else `retry-after` (both with `remaining = 0`), else KeyError |
| `Endpoints.Merge` | hnpixels/core.py:237-244 | with neither default nor call headers the merge is empty (and is then passed as `None`) |
| `Endpoints.MergeLaws` | hnpixels/core.py:237-244 | merged headers: the union of the keys, call headers override defaults, and nothing else is added |
| `Endpoints.Endpoint.constructor` | hnpixels/core.py:153-169 | a new endpoint is inactive and has a fresh limiter with no warmup |
| `Endpoints.Endpoint.UpdateRatelimiter` | hnpixels/core.py:171-198 | unlocks the limiter from the selected header set; with no complete set it raises KeyError and leaves the guard as it was |
| `Endpoints.Endpoint.Receive` | hnpixels/core.py:256-268 | the reply handling shared by `activate` and `request`, as `Handle`: a success or 429 reloads the limiter (429 then raising RatelimitError), any other status raises HTTPError with the limiter untouched, a missing header set raises KeyError |
| `Endpoints.Endpoint.Activate` | hnpixels/core.py:200-211 | one HEAD probe with the default headers. A success updates the limiter. A 429 updates it and raises RatelimitError. Any other status raises HTTPError with the limiter untouched. All of this matches `Probe` |
| `Endpoints.Endpoint.Request` | hnpixels/core.py:213-268 | the new `_active` flag, guard, clock, requests sent and result are those of `RequestSpec`: activation (retried once after a 429) while inactive, then the throttled request |
| `Endpoints.Endpoint.Throttled` | hnpixels/core.py:237-268 | merge headers, `lock`, send, and handle the reply, as `Dispatch` specifies |
| `Endpoints.NoHeadersNoUpdate` | hnpixels/core.py:185-198 | without any rate-limit header set the update is a KeyError |
| `Endpoints.TripleTakesPriority` | hnpixels/core.py:179-184 | a complete triple wins, and only a zero `requests-remaining` moves the guard |
| `Endpoints.FallbackIsCooldown` | hnpixels/core.py:185-194 | without the triple, `cooldown-reset` (else `retry-after`) sets a cooldown of that length from now |
| `Endpoints.ActivationProbes` | hnpixels/core.py:219-229 | activation sends one or two HEAD probes, all at the same instant. It sends two exactly when the first met a 429 that carried usable rate-limit headers |
| `Endpoints.ActivationSucceeds` | hnpixels/core.py:219-235 | activation succeeds exactly when the last probe got a success status and usable headers |
| `Endpoints.ActivationErrors` | hnpixels/core.py:220-232 | errors escaping activation are HTTP errors (a plain HTTPError or a 429) wrapped as "Failed to access endpoint", or an unwrapped KeyError or transport error |
| `Endpoints.ActiveFlag` | hnpixels/core.py:219-235 | an active endpoint stays active and sends one request; an inactive one becomes active exactly when activation succeeds |
| `Endpoints.DispatchOutcome` | hnpixels/core.py:237-268 | the request goes out after the guard time, with the merged headers. Success updates the limiter and returns the response. A 429 updates it and raises RatelimitError. Any other status raises HTTPError with the limiter untouched |
| `Endpoints.RetryScenario` | hnpixels/core.py:219-264 | a 429 on the first probe and success afterwards: two probes, then a successful request sent at the end of the 429's cooldown |
| `Painters.EndpointUrl` | hnpixels/core.py:304-310 | the URL is the API root followed by the endpoint name |
| `Painters.EndpointUrlsDistinct` | hnpixels/core.py:294-302 | the get_pixel, get_pixels, set_pixel and get_size URLs are pairwise different |
| `Painters.ReadColour` | hnpixels/core.py:312-316 | a colour is read exactly when the body is JSON with an "rgb" string of six hex digits; it is then that code's byte colour. A body that is not JSON is a JSON decode error, a missing "rgb" a KeyError, an integer "rgb" a TypeError, any other string a ValueError; request errors pass through |
| `Painters.WriteOutcome` | hnpixels/core.py:350-353 | after the write only a non-JSON body raises; a missing "message" is caught |
| `Painters.SizeOf` | hnpixels/core.py:357-361 | the size is read exactly from an OK reply with integer "width" and "height"; an error status is HTTPError, a dropped connection NetworkError |
| `Painters.Painter.constructor` | hnpixels/core.py:284-302 | three inactive endpoints, all distinct, on the get_pixel, get_pixels and set_pixel URLs (pairwise different, by `EndpointUrlsDistinct`), all carrying the bearer-token headers |
| `Painters.Painter.Colour` | hnpixels/core.py:312-316 | a get_pixel request with the coordinates as query, its body read as a colour (`ColourSpec`) |
| `Painters.Painter.Paint` | hnpixels/core.py:319-353 | both endpoints' state, the clock, the requests and the outcome are those of `PaintSpec`: the checked paint with `check`, the write alone without |
| `Painters.Painter.CheckedPaint` | hnpixels/core.py:329-348 | with `check`: get_pixel first, then return, propagate, or write, as `CheckedPaintSpec` |
| `Painters.Painter.Write` | hnpixels/core.py:345-353 | the set_pixel request with the coordinates and hex code as JSON, and its outcome, as `WriteSpec` and `WriteOutcome` |
| `Painters.Painter.Size` | hnpixels/core.py:357-361 | one unthrottled GET to get_size with the painter's headers |
| `Painters.Painter.Sketch` | hnpixels/core.py:363-366 | the get_pixels request, then `size`, combined as `SketchSpec` |
| `Painters.RequestStaysOnRoute` | hnpixels/core.py:200-254 | every request an endpoint sends goes to its own URL |
| `Painters.SuccessSentPayload` | hnpixels/core.py:246-260 | a successful request sent its payload last, with the endpoint's verb and URL |
| `Painters.PaintShortCircuit` | hnpixels/core.py:330-340 | with `check` and the colour already right, no write: only get_pixel requests, set_pixel untouched, a normal return |
| `Painters.PaintSwallowsHttpError` | hnpixels/core.py:330-348 | an HTTP error from the check (a 429 included) is swallowed, and the write proceeds as if unchecked |
| `Painters.PaintPropagatesOtherErrors` | hnpixels/core.py:330-343 | any other error from the check propagates, and no write is attempted |
| `Painters.PaintWrites` | hnpixels/core.py:319-348 | without `check`, get_pixel is never touched. A completed write sent the target's hex code to set_pixel last |
| `Painters.ColourRoundTrip` | hnpixels/core.py:312-316 | a colour read from the API is a byte colour whose hex code reads back as itself |
| `Painters.SketchContents` | hnpixels/core.py:363-366 | a sketch holds the get_pixels body and the get_size dimensions, and the size request follows the pixels request |
| `Draft.PairInt` | hnpixels/hnpixels.py:27 | `int(pair, 16)` on two characters. It fails only with ValueError and agrees with the hex-pair value on two hex digits. Its results lie in -15..255, and a negative one needs a leading '-' |
| `Draft.PairWhitespace` | hnpixels/hnpixels.py:27 | `int()` skips an ASCII blank (space, tab, line feed) beside one digit, but refuses the separators 0x1c and 0x1f, two blanks and two signs |
| `Draft.FromHex` | hnpixels/hnpixels.py:20-27 | length other than six is ValueError; it succeeds exactly when all three pairs `[0:2]`, `[2:4]`, `[4:6]` parse, and then each channel is `int` of its pair |
| `Draft.FromHexOnHexCodes` | hnpixels/hnpixels.py:20-31 | on six hex digits the draft agrees with `core.py`, so `from_hex(s).hex() == s.upper()` |
| `Draft.SignedPairAccepted` | hnpixels/hnpixels.py:27 | "+10000" reads as (1, 0, 0), whose hex is not the input, and "-10000" gives a negative channel |
| `Draft.Lookup` | hnpixels/hnpixels.py:42-47 | reads three bytes from offset `x + width * y` (unscaled, no wraparound); a short slice is TypeError |
| `Draft.MisalignedLookup` | hnpixels/hnpixels.py:46-47 | on a 2x1 canvas, pixel (1, 0) straddles two pixels, unlike the scaled lookup |
| `Draft.LookupsAgreeAtOrigin` | hnpixels/hnpixels.py:42-47 | at (0, 0) the two lookups agree |
| `Draft.NoWraparound` | hnpixels/hnpixels.py:45-47 | on the top row of a 2x1 canvas, `x = -1` is not wrapped and fails, where `core.py` returns the last pixel of the row |
| `Draft.NegativeOffset` | hnpixels/hnpixels.py:45-47 | a negative unscaled offset `i = x + width * y` is not wrapped but sliced with Python's negative bounds: from -3 to -1 and below `-len(content)` the lookup fails with TypeError; from -4 down to `-len(content)` it reads the three bytes at `len(content) + i` |
| `Draft.ParseLimits` | hnpixels/hnpixels.py:96-109 | succeeds exactly when `requests-remaining`, the misspelt `reqeusts-limit` and `requests-reset` are all present; otherwise KeyError |
| `Draft.Throttled` | hnpixels/hnpixels.py:111-122 | the request is stamped after the lock's sleep, and a failing call leaves the guard untouched |
| `Draft.ReadColour` | hnpixels/hnpixels.py:124 | a colour is read exactly by the draft `from_hex` of a JSON "rgb" string; a body that is not JSON is a JSON decode error, a missing "rgb" a KeyError, an integer "rgb" a TypeError; request errors pass through |
| `Draft.Painter.constructor` | hnpixels/hnpixels.py:85-94 | three distinct limiters with no warmup, and the bearer-token headers |
| `Draft.Painter.UpdateRatelimiter` | hnpixels/hnpixels.py:96-109 | unlocks from the three keys, or raises KeyError with the guard unchanged |
| `Draft.Painter.Call` | hnpixels/hnpixels.py:113-122 | `lock`, request, `raise_for_status`, `update_ratelimiter`, as `Throttled` |
| `Draft.Painter.Pixel` | hnpixels/hnpixels.py:111-124 | only the pixel limiter changes; the colour is read from the body |
| `Draft.Painter.Paint` | hnpixels/hnpixels.py:127-139 | only the set-pixel limiter changes; the form body carries the hex code |
| `Draft.Painter.Size` | hnpixels/hnpixels.py:142-148 | one unthrottled GET to get_size |
| `Draft.Painter.Sketch` | hnpixels/hnpixels.py:150-158 | only the canvas limiter changes; the result is `SketchSpec` |
| `Draft.ThrottledOutcome` | hnpixels/hnpixels.py:113-122 | a failing status raises HTTPError before the limiter is reloaded; a success reloads it, cooling down only when nothing remains |
| `Draft.MisspeltLimitKey` | hnpixels/hnpixels.py:105-109 | headers with the correctly spelt `requests-limit` make every successful call raise KeyError, though `core.py` reads them |
| `Draft.NoFallback` | hnpixels/hnpixels.py:96-109 | a cooldown-only header set is a KeyError here but a cooldown in `core.py` |
| `Draft.SketchContents` | hnpixels/hnpixels.py:150-158 | a sketch is the get_pixels body with the get_size dimensions, and both requests go out at the same instant |
| `Protection.ScriptedPainter.Sketch` | hnpixels/protector.py:58 | each `sketch()` call returns the next scripted snapshot and is counted |
| `Protection.ScriptedPainter.Paint` | hnpixels/protector.py:83 | each `paint()` call is recorded with its coordinate and goal, even when it raises |
| `Protection.Protector.constructor` | hnpixels/protector.py:35-39 | a protector over the given painter |
| `Protection.Protector.Check` | hnpixels/protector.py:62-85 | the loop body: a transparent pixel is skipped; otherwise compare, paint on a mismatch, re-fetch (`Step`) |
| `Protection.Protector.Row` | hnpixels/protector.py:61-85 | the inner loop performs the scan of the row's targets |
| `Protection.Protector.Rows` | hnpixels/protector.py:60-85 | the outer `for y` loop performs the scan of all the job's targets, row after row |
| `Protection.Protector.Pass` | hnpixels/protector.py:55-85 | one job: a fetch, then the rows in order (`JobPass`) |
| `Protection.Protector.Circuit` | hnpixels/protector.py:52-85 | the jobs in order, stopping at the first error (`CircuitSpec`) |
| `Protection.TargetsStep` | hnpixels/protector.py:60-61 | scanning the first `y + 1` rows is scanning row `y` after the first `y` |
| `Protection.CircuitStep` | hnpixels/protector.py:52-58 | handling one more job is one more pass |
| `Protection.RowStep` | hnpixels/protector.py:61-63 | advancing the inner loop by one pixel visits it exactly when it is opaque |
| `Protection.ScanFailed` | hnpixels/protector.py:52-85 | after an error nothing further happens in the job |
| `Protection.JobPassFailed` | hnpixels/protector.py:53-58 | after an error the next job neither fetches nor paints |
| `Protection.CircuitAbsorbs` | hnpixels/protector.py:52-85 | an error ends the circuit: the later jobs change nothing |
| `Protection.RowTargetsExactlyOpaque` | hnpixels/protector.py:61-69 | a row's targets are exactly its opaque pixels |
| `Protection.TargetsExactlyOpaque` | hnpixels/protector.py:60-69 | a job's targets are exactly its opaque pixels, at origin plus offset, with their RGB as goal; alpha-0 pixels are never targets |
| `Protection.RowTargetsOrdered` | hnpixels/protector.py:61 | within a row, targets go left to right |
| `Protection.TargetsOrdered` | hnpixels/protector.py:60-61 | targets are in row-major order, `y` outer and `x` inner |
| `Protection.VisitRepairs` | hnpixels/protector.py:71-85 | `paint` is called exactly on a mismatch, with the goal; a successful paint is followed by a fetch whose snapshot the scan then uses |
| `Protection.ScanPaintsTargets` | hnpixels/protector.py:71-83 | a scan only adds paint calls, each at one of the scanned targets |
| `Protection.ScanBalance` | hnpixels/protector.py:72-85 | without an error, a scan fetches once per paint |
| `Protection.JobPassCounts` | hnpixels/protector.py:55-85 | a pass without an error fetches once plus once per paint, and paints only its own targets |
| `Protection.ScanConverged` | hnpixels/protector.py:71-72 | targets that already match leave the state unchanged |
| `Protection.JobPassConverged` | hnpixels/protector.py:58-85 | when the canvas already shows the image, a pass makes no paint call and fetches once |
| `Protection.CircuitConverged` | hnpixels/protector.py:52-85 | when the snapshot fetched for each job shows that job's image, a circuit paints nothing, raises nothing, and fetches once per job |
| `Protection.ScanSingleRepair` | hnpixels/protector.py:71-85 | targets `a + [t] + b` whose snapshot shows `a` and shows `t` in another colour, and whose re-fetched snapshot shows `b`: exactly one paint call, at `t`, and one more fetch, which the rest of the scan uses |
| `Protection.SingleRepair` | hnpixels/protector.py:58-85 | a job with targets `a + [t] + b` whose first snapshot shows `a` and shows `t` in another colour, and whose second snapshot shows `b`: the pass paints `t` once, with its goal, and fetches twice |

## Left out

- HTTP transport: `requests.head`, `requests.request`, `requests.get` and `requests.post` are replaced by the scripted `Network`. Redirects, timeouts and the content of transport errors are not modelled.
- Response header names are given already lower-cased, as the source spells them; the case-insensitive lookup of the `CaseInsensitiveDict` that `requests` returns is not modelled.
- Response headers are given as already-parsed numbers. A header that `int()` or `float()` cannot parse would raise ValueError in the source. `retry-after` is only the delay-seconds form of section 10.2.3 of RFC 9110; an HTTP-date value is not handled.
- JSON bodies are an optional map from keys to strings or integers. A JSON body that is not an object (a list, say) is not modelled.
- Time is a real-valued clock advanced only by rate-limiter sleeps; floating-point rounding of `time.time()` is not modelled. `Ratelimiter.Lock` returns the sleep duration rather than sleeping.
- Logging throughout, and the `__iter__` of `Colour`, have no effect on the modelled behaviour.
- The infinite `while protecting` loop and the one-second sleep after each circuit: one circuit is modelled, since the loop never ends.
- `main` in `protector.py`: reading `.env` and decoding images with PIL/NumPy. A job's image is a sequence of rows of RGBA pixels.
- `hnpixels/explorer.py` is not part of this model: it does not parse.
- The latent duplicate `headers` keyword in `Endpoint.request`: a caller-supplied `headers` would also travel in `**kwargs`, which Python rejects. Only the merge is modelled, and no caller passes `headers`.
- `Protection.Protector.Circuit` works over a scripted painter (a script of snapshots and paint failures) rather than the core `Painter`, so the requests a circuit makes are not modelled.
- `Painters.SizeOf`: a non-integer "width" or "height" is refused with TypeError. The source stores whatever the body holds in the `Sketch` and would fail only later.
- `Draft.PairInt`: non-ASCII whitespace and non-ASCII decimal digits, which Python's `int()` also accepts, are not modelled.
- The `Sketch` dimensions are integers; the source does not check their type.

## Findings

| source | as written | input that shows it | evidently intended | confidence | as-written member | corrected member |
|---|---|---|---|---|---|---|
| hnpixels/hnpixels.py:46 | the byte offset is `x + width * y`, not scaled by three bytes per pixel | a 2x1 canvas holding bytes 1..6: `sketch[1, 0]` gives (2, 3, 4) instead of (4, 5, 6) | offset `(x + width * y) * 3`, as in hnpixels/core.py:94 | high; not executed | `Draft.MisalignedLookup` | `Sketches.LookupInside` |
| hnpixels/hnpixels.py:107 | header key `"reqeusts-limit"` | any OK response carrying `requests-remaining`, `requests-limit`, `requests-reset`: the call raises KeyError and the limiter is never reloaded | `"requests-limit"`, as in hnpixels/core.py:182 | high; not executed | `Draft.MisspeltLimitKey` | `Endpoints.TripleTakesPriority` |
| hnpixels/hnpixels.py:27 | each pair parsed with `int(pair, 16)`, which accepts a sign or whitespace | `"+10000"` gives (1, 0, 0), whose hex is "010000"; `"-10000"` gives a channel of -1 | only hex digits accepted, as `bytes.fromhex` does in hnpixels/core.py:32 | medium; not executed | `Draft.SignedPairAccepted` | `Colours.HexAfterFromHex` |
