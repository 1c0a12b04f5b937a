/** One circuit of `Protector.activate` from hnpixels/protector.py: for each
    job in order, fetch the canvas, scan the job's image row by row, and for
    every opaque pixel whose canvas colour differs from the image, paint it
    and fetch the canvas again. Nothing is caught: the first error from the
    painter or from a sketch lookup ends the circuit.

    The painter is abstract: a script says what the k-th `sketch()` call
    returns and whether the k-th `paint()` call raises. */
module Protection {
  import opened Wrappers
  import opened Failures
  import opened Colours
  import opened Sketches

  /** One pixel of a decoded RGBA image. */
  datatype Rgba = Rgba(r: Byte, g: Byte, b: Byte, a: Byte)

  /** `Job`: an image (rows of pixels) and the canvas point its top-left
      corner goes to. */
  datatype Job = Job(image: seq<seq<Rgba>>, origin: (int, int))

  /** A canvas coordinate with a colour: a pixel to protect, or a paint call. */
  datatype Pixel = Pixel(x: int, y: int, colour: Colour)

  /** What the painter does when called: the k-th `sketch()` returns
      `fetch(k)`, and the k-th `paint()` raises `paint(k)` if that is a failure. */
  datatype Script = Script(fetch: nat -> Result<Sketch, Failure>, paint: nat -> Option<Failure>)

  /** The goal for image pixel `(x, y)`: its RGB channels, at the origin
      plus `(x, y)` on the canvas. */
  function TargetOf(job: Job, y: nat, x: nat): Pixel
    requires y < |job.image| && x < |job.image[y]|
  {
    var px := job.image[y][x];
    Pixel(job.origin.0 + x, job.origin.1 + y, Colour(px.r, px.g, px.b))
  }

  /** The targets among the first `n` pixels of row `y`: the opaque ones. */
  function RowTargets(job: Job, y: nat, n: nat): seq<Pixel>
    requires y < |job.image| && n <= |job.image[y]|
  {
    if n == 0 then []
    else RowTargets(job, y, n - 1) + (if job.image[y][n - 1].a != 0 then [TargetOf(job, y, n - 1)] else [])
  }

  /** The targets of the first `k` rows, row after row. */
  function Targets(job: Job, k: nat): seq<Pixel>
    requires k <= |job.image|
  {
    if k == 0 then [] else Targets(job, k - 1) + RowTargets(job, k - 1, |job.image[k - 1]|)
  }

  function AllTargets(job: Job): seq<Pixel> {
    Targets(job, |job.image|)
  }

  // ---------------------------------------------------------------------------
  // The circuit as functions

  /** Where a circuit stands: the sketch being compared against, how many
      sketches and which paint calls the painter has seen, and the error that
      ended the circuit, if any. */
  datatype Progress = Progress(sketch: Sketch, fetches: nat, painted: seq<Pixel>, failure: Option<Failure>)

  /** The sketch variable before the first fetch; it is never read. */
  const Blank: Sketch := Sketch([], 0, 0)

  /** One target: compare, and on a mismatch paint the goal and re-fetch. */
  function Visit(script: Script, t: Pixel, st: Progress): Progress {
    if st.failure.Some? then st
    else match Lookup(st.sketch, t.x, t.y)
      case Failure(e) => st.(failure := Some(e))
      case Success(current) =>
        if current == t.colour then st
        else
          var painted := st.painted + [t];
          match script.paint(|st.painted|)
          case Some(e) => st.(painted := painted, failure := Some(e))
          case None =>
            match script.fetch(st.fetches)
            case Failure(e) => st.(painted := painted, fetches := st.fetches + 1, failure := Some(e))
            case Success(sk) => st.(painted := painted, fetches := st.fetches + 1, sketch := sk)
  }

  /** The targets visited in order. */
  function Scan(script: Script, ts: seq<Pixel>, st: Progress): Progress
    decreases |ts|
  {
    if ts == [] then st else Visit(script, ts[|ts| - 1], Scan(script, ts[..|ts| - 1], st))
  }

  /** The fetch at the start of a job. */
  function JobStart(script: Script, st: Progress): Progress {
    if st.failure.Some? then st
    else match script.fetch(st.fetches)
      case Failure(e) => st.(fetches := st.fetches + 1, failure := Some(e))
      case Success(sk) => st.(fetches := st.fetches + 1, sketch := sk)
  }

  function JobPass(script: Script, job: Job, st: Progress): Progress {
    Scan(script, AllTargets(job), JobStart(script, st))
  }

  /** The jobs handled in the order given. */
  function CircuitSpec(script: Script, jobs: seq<Job>, st: Progress): Progress
    decreases |jobs|
  {
    if jobs == [] then st else JobPass(script, jobs[|jobs| - 1], CircuitSpec(script, jobs[..|jobs| - 1], st))
  }

  // ---------------------------------------------------------------------------
  // The objects

  class ScriptedPainter {
    const script: Script
    var fetches: nat
    var paints: seq<Pixel>

    constructor (script: Script)
      ensures this.script == script && fetches == 0 && paints == []
    {
      this.script := script;
      fetches := 0;
      paints := [];
    }

    /** `painter.sketch()`. */
    method Sketch() returns (r: Result<Sketches.Sketch, Failure>)
      modifies this
      ensures r == script.fetch(old(fetches)) && fetches == old(fetches) + 1 && paints == old(paints)
    {
      r := script.fetch(fetches);
      fetches := fetches + 1;
    }

    /** `painter.paint(x, y, colour)`; the call is recorded even when it raises. */
    method Paint(x: int, y: int, colour: Colour) returns (o: Outcome<Failure>)
      modifies this
      ensures paints == old(paints) + [Pixel(x, y, colour)] && fetches == old(fetches)
      ensures o == if script.paint(|old(paints)|).Some? then Fail(script.paint(|old(paints)|).value) else Pass
    {
      var e := script.paint(|paints|);
      paints := paints + [Pixel(x, y, colour)];
      o := if e.Some? then Fail(e.value) else Pass;
    }
  }

  class Protector {
    const painter: ScriptedPainter

    constructor (painter: ScriptedPainter)
      ensures this.painter == painter
    {
      this.painter := painter;
    }

    /** The body of the inner loop for pixel `(x, y)`: skip a transparent
        pixel; otherwise compare, and on a mismatch paint and re-fetch. */
    method Check(job: Job, y: nat, x: nat, sketch: Sketch) returns (current: Sketch, failure: Option<Failure>)
      requires y < |job.image| && x < |job.image[y]|
      modifies painter
      ensures Step(painter.script, job, y, x, Progress(sketch, old(painter.fetches), old(painter.paints), None))
              == Progress(current, painter.fetches, painter.paints, failure)
    {
      current := sketch;
      var pixel := job.image[y][x];
      if pixel.a == 0 {
        return current, None;
      }
      var goal := Colour(pixel.r, pixel.g, pixel.b);
      var canvasX, canvasY := job.origin.0 + x, job.origin.1 + y;
      var seen := Lookup(sketch, canvasX, canvasY);
      if seen.Failure? {
        return current, Some(seen.error);
      }
      if seen.value == goal {
        return current, None;
      }
      var o := painter.Paint(canvasX, canvasY, goal);
      if o.Fail? {
        return current, Some(o.error);
      }
      var fetched := painter.Sketch();
      if fetched.Failure? {
        return current, Some(fetched.error);
      }
      return fetched.value, None;
    }

    /** The inner `for x` loop over row `y`, starting from `sketch`. */
    method Row(job: Job, y: nat, sketch: Sketch) returns (current: Sketch, failure: Option<Failure>)
      requires y < |job.image|
      modifies painter
      ensures Scan(painter.script, RowTargets(job, y, |job.image[y]|),
                   Progress(sketch, old(painter.fetches), old(painter.paints), None))
              == Progress(current, painter.fetches, painter.paints, failure)
    {
      ghost var start := Progress(sketch, painter.fetches, painter.paints, None);
      current := sketch;
      var x := 0;
      while x < |job.image[y]|
        invariant 0 <= x <= |job.image[y]|
        invariant Scan(painter.script, RowTargets(job, y, x), start)
                  == Progress(current, painter.fetches, painter.paints, None)
      {
        RowStep(painter.script, job, y, x, start);
        var f;
        current, f := Check(job, y, x, current);
        if f.Some? {
          RowAbsorbs(painter.script, job, y, x + 1, |job.image[y]|, start);
          return current, f;
        }
        x := x + 1;
      }
      failure := None;
    }

    /** The outer `for y` loop of one job, starting from `sketch`. */
    method Rows(job: Job, sketch: Sketch) returns (current: Sketch, failure: Option<Failure>)
      modifies painter
      ensures Scan(painter.script, AllTargets(job), Progress(sketch, old(painter.fetches), old(painter.paints), None))
              == Progress(current, painter.fetches, painter.paints, failure)
    {
      ghost var start := Progress(sketch, painter.fetches, painter.paints, None);
      current := sketch;
      var y := 0;
      while y < |job.image|
        invariant 0 <= y <= |job.image|
        invariant Scan(painter.script, Targets(job, y), start)
                  == Progress(current, painter.fetches, painter.paints, None)
      {
        ghost var before := Progress(current, painter.fetches, painter.paints, None);
        var f;
        current, f := Row(job, y, current);
        ghost var after := Progress(current, painter.fetches, painter.paints, f);
        TargetsStep(painter.script, job, y, start, before, after);
        if f.Some? {
          TargetsAbsorb(painter.script, job, y + 1, |job.image|, start);
          return current, f;
        }
        y := y + 1;
      }
      failure := None;
    }

    /** One job: fetch the canvas, then scan the image. */
    method Pass(ghost previous: Sketch, job: Job) returns (current: Sketch, failure: Option<Failure>)
      modifies painter
      ensures var st := JobPass(painter.script, job, Progress(previous, old(painter.fetches), old(painter.paints), None));
              && st.fetches == painter.fetches && st.painted == painter.paints && st.failure == failure
              && (failure.None? ==> st.sketch == current)
    {
      ghost var start := JobStart(painter.script, Progress(previous, painter.fetches, painter.paints, None));
      var fetched := painter.Sketch();
      if fetched.Failure? {
        ScanFailed(painter.script, AllTargets(job), start);
        return Blank, Some(fetched.error);
      }
      assert start == Progress(fetched.value, painter.fetches, painter.paints, None);
      current, failure := Rows(job, fetched.value);
    }

    /** One circuit of `activate`: every job, in order; the first error ends it. */
    method Circuit(jobs: seq<Job>) returns (failure: Option<Failure>)
      modifies painter
      ensures var st := CircuitSpec(painter.script, jobs, Progress(Blank, old(painter.fetches), old(painter.paints), None));
              && st.fetches == painter.fetches && st.painted == painter.paints && st.failure == failure
    {
      ghost var start := Progress(Blank, painter.fetches, painter.paints, None);
      ghost var last := Blank;
      var i := 0;
      while i < |jobs|
        invariant 0 <= i <= |jobs|
        invariant CircuitSpec(painter.script, jobs[..i], start) == Progress(last, painter.fetches, painter.paints, None)
      {
        CircuitStep(painter.script, jobs, i, start);
        var sketch, f := Pass(last, jobs[i]);
        if f.Some? {
          CircuitAbsorbs(painter.script, jobs, i + 1, start);
          return f;
        }
        last := sketch;
        i := i + 1;
      }
      assert jobs[..|jobs|] == jobs;
      failure := None;
    }
  }

  // ---------------------------------------------------------------------------
  // Folding laws

  /** Pixel `(x, y)` of the scan: a target only when opaque. */
  function Step(script: Script, job: Job, y: nat, x: nat, st: Progress): Progress
    requires y < |job.image| && x < |job.image[y]|
  {
    if job.image[y][x].a != 0 then Visit(script, TargetOf(job, y, x), st) else st
  }

  lemma RowStep(script: Script, job: Job, y: nat, x: nat, st: Progress)
    requires y < |job.image| && x < |job.image[y]|
    ensures Scan(script, RowTargets(job, y, x + 1), st) == Step(script, job, y, x, Scan(script, RowTargets(job, y, x), st))
  {
    if job.image[y][x].a != 0 {
      ScanSnoc(script, RowTargets(job, y, x), TargetOf(job, y, x), st);
    } else {
      assert RowTargets(job, y, x + 1) == RowTargets(job, y, x) + [] == RowTargets(job, y, x);
    }
  }

  lemma ScanSnoc(script: Script, ts: seq<Pixel>, t: Pixel, st: Progress)
    ensures Scan(script, ts + [t], st) == Visit(script, t, Scan(script, ts, st))
  {
    assert (ts + [t])[..|ts|] == ts;
  }

  /** Scanning two lists is scanning their concatenation. */
  lemma {:induction false} ScanAppend(script: Script, a: seq<Pixel>, b: seq<Pixel>, st: Progress)
    ensures Scan(script, a + b, st) == Scan(script, b, Scan(script, a, st))
    decreases |b|
  {
    if b == [] {
      assert a + b == a;
    } else {
      var b' := b[..|b| - 1];
      assert a + b == (a + b') + [b[|b| - 1]];
      assert b == b' + [b[|b| - 1]];
      ScanSnoc(script, a + b', b[|b| - 1], st);
      ScanSnoc(script, b', b[|b| - 1], Scan(script, a, st));
      ScanAppend(script, a, b', st);
    }
  }

  /** Once an error has been raised nothing more happens. */
  lemma {:induction false} ScanFailed(script: Script, ts: seq<Pixel>, st: Progress)
    requires st.failure.Some?
    ensures Scan(script, ts, st) == st
    decreases |ts|
  {
    if ts != [] {
      ScanFailed(script, ts[..|ts| - 1], st);
    }
  }

  /** Scanning the first `y + 1` rows is scanning row `y` after the first `y`. */
  lemma TargetsStep(script: Script, job: Job, y: nat, st: Progress, before: Progress, after: Progress)
    requires y < |job.image|
    requires Scan(script, Targets(job, y), st) == before
    requires Scan(script, RowTargets(job, y, |job.image[y]|), before) == after
    ensures Scan(script, Targets(job, y + 1), st) == after
  {
    ScanAppend(script, Targets(job, y), RowTargets(job, y, |job.image[y]|), st);
  }

  /** A scan that has failed on `a` ignores whatever follows. */
  lemma ScanPrefixFailed(script: Script, a: seq<Pixel>, b: seq<Pixel>, st: Progress)
    requires Scan(script, a, st).failure.Some?
    ensures Scan(script, a + b, st) == Scan(script, a, st)
  {
    ScanAppend(script, a, b, st);
    ScanFailed(script, b, Scan(script, a, st));
  }

  /** The same for any longer list that starts with `a`. */
  lemma ScanExtensionFailed(script: Script, a: seq<Pixel>, c: seq<Pixel>, st: Progress)
    requires a <= c && Scan(script, a, st).failure.Some?
    ensures Scan(script, c, st) == Scan(script, a, st)
  {
    assert c == a + c[|a|..];
    ScanPrefixFailed(script, a, c[|a|..], st);
  }

  lemma {:induction false} RowPrefix(job: Job, y: nat, x: nat, n: nat)
    requires y < |job.image| && x <= n <= |job.image[y]|
    ensures RowTargets(job, y, x) <= RowTargets(job, y, n)
    decreases n - x
  {
    if x < n {
      RowPrefix(job, y, x, n - 1);
    }
  }

  lemma {:induction false} TargetsPrefix(job: Job, k: nat, n: nat)
    requires k <= n <= |job.image|
    ensures Targets(job, k) <= Targets(job, n)
    decreases n - k
  {
    if k < n {
      TargetsPrefix(job, k, n - 1);
    }
  }

  lemma RowAbsorbs(script: Script, job: Job, y: nat, x: nat, n: nat, st: Progress)
    requires y < |job.image| && x <= n <= |job.image[y]|
    requires Scan(script, RowTargets(job, y, x), st).failure.Some?
    ensures Scan(script, RowTargets(job, y, n), st) == Scan(script, RowTargets(job, y, x), st)
  {
    RowPrefix(job, y, x, n);
    ScanExtensionFailed(script, RowTargets(job, y, x), RowTargets(job, y, n), st);
  }

  lemma TargetsAbsorb(script: Script, job: Job, k: nat, n: nat, st: Progress)
    requires k <= n <= |job.image|
    requires Scan(script, Targets(job, k), st).failure.Some?
    ensures Scan(script, Targets(job, n), st) == Scan(script, Targets(job, k), st)
  {
    TargetsPrefix(job, k, n);
    ScanExtensionFailed(script, Targets(job, k), Targets(job, n), st);
  }

  lemma JobPassFailed(script: Script, job: Job, st: Progress)
    requires st.failure.Some?
    ensures JobPass(script, job, st) == st
  {
    ScanFailed(script, AllTargets(job), st);
  }

  /** Handling one more job is one more pass. */
  lemma CircuitStep(script: Script, jobs: seq<Job>, i: nat, st: Progress)
    requires i < |jobs|
    ensures CircuitSpec(script, jobs[..i + 1], st) == JobPass(script, jobs[i], CircuitSpec(script, jobs[..i], st))
  {
    assert jobs[..i + 1][..i] == jobs[..i];
  }

  /** The first error ends the circuit: the jobs after it fetch nothing and
      paint nothing. */
  lemma {:induction false} CircuitAbsorbs(script: Script, jobs: seq<Job>, k: nat, st: Progress)
    requires k <= |jobs|
    requires CircuitSpec(script, jobs[..k], st).failure.Some?
    ensures CircuitSpec(script, jobs, st) == CircuitSpec(script, jobs[..k], st)
    decreases |jobs|
  {
    if k == |jobs| {
      assert jobs[..k] == jobs;
    } else {
      var front := jobs[..|jobs| - 1];
      assert front[..k] == jobs[..k];
      CircuitAbsorbs(script, front, k, st);
      JobPassFailed(script, jobs[|jobs| - 1], CircuitSpec(script, front, st));
    }
  }

  // ---------------------------------------------------------------------------
  // Which pixels are targets, and in which order

  /** Row `y` yields exactly its opaque pixels. */
  lemma {:induction false} RowTargetsExactlyOpaque(job: Job, y: nat, n: nat)
    requires y < |job.image| && n <= |job.image[y]|
    ensures forall x :: 0 <= x < n && job.image[y][x].a != 0 ==> TargetOf(job, y, x) in RowTargets(job, y, n)
    ensures forall t :: t in RowTargets(job, y, n) ==>
              exists x :: 0 <= x < n && job.image[y][x].a != 0 && t == TargetOf(job, y, x)
  {
    if n > 0 {
      RowTargetsExactlyOpaque(job, y, n - 1);
    }
  }

  /** A job's targets are exactly its opaque pixels, at origin plus offset
      and with their RGB channels as the goal; a transparent pixel is never
      among them. */
  lemma {:induction false} TargetsExactlyOpaque(job: Job, k: nat)
    requires k <= |job.image|
    ensures forall y, x :: 0 <= y < k && 0 <= x < |job.image[y]| && job.image[y][x].a != 0 ==>
              TargetOf(job, y, x) in Targets(job, k)
    ensures forall t :: t in Targets(job, k) ==>
              exists y, x :: 0 <= y < k && 0 <= x < |job.image[y]| && job.image[y][x].a != 0 && t == TargetOf(job, y, x)
  {
    if k > 0 {
      TargetsExactlyOpaque(job, k - 1);
      RowTargetsExactlyOpaque(job, k - 1, |job.image[k - 1]|);
    }
  }

  /** Canvas order of two targets: by row, then by column. */
  predicate Before(p: Pixel, q: Pixel) {
    p.y < q.y || (p.y == q.y && p.x < q.x)
  }

  predicate RowMajor(ts: seq<Pixel>) {
    forall i, j :: 0 <= i < j < |ts| ==> Before(ts[i], ts[j])
  }

  lemma {:induction false} RowTargetsOrdered(job: Job, y: nat, n: nat)
    requires y < |job.image| && n <= |job.image[y]|
    ensures RowMajor(RowTargets(job, y, n))
    ensures forall t :: t in RowTargets(job, y, n) ==> t.y == job.origin.1 + y && t.x < job.origin.0 + n
  {
    if n > 0 {
      RowTargetsOrdered(job, y, n - 1);
    }
  }

  /** Pixels are visited row-major: `y` outer, `x` inner. */
  lemma {:induction false} TargetsOrdered(job: Job, k: nat)
    requires k <= |job.image|
    ensures RowMajor(Targets(job, k))
    ensures forall t :: t in Targets(job, k) ==> t.y < job.origin.1 + k
  {
    if k > 0 {
      TargetsOrdered(job, k - 1);
      var row := RowTargets(job, k - 1, |job.image[k - 1]|);
      RowTargetsOrdered(job, k - 1, |job.image[k - 1]|);
      var ts := Targets(job, k - 1) + row;
      forall i, j | 0 <= i < j < |ts| ensures Before(ts[i], ts[j]) {
        if j < |Targets(job, k - 1)| {
        } else if i >= |Targets(job, k - 1)| {
          assert ts[i] == row[i - |Targets(job, k - 1)|];
          assert ts[j] == row[j - |Targets(job, k - 1)|];
        } else {
          assert ts[i] in Targets(job, k - 1);
          assert ts[j] in row;
        }
      }
    }
  }

  // ---------------------------------------------------------------------------
  // What a scan does

  /** On a target, `paint` is called exactly when the snapshot's colour there
      differs from the goal, and it is called with that goal; a successful
      paint is followed by a fresh snapshot that the rest of the scan uses. */
  lemma VisitRepairs(script: Script, t: Pixel, st: Progress)
    requires st.failure.None?
    ensures var r := Visit(script, t, st);
            && (|r.painted| > |st.painted| <==>
                  Lookup(st.sketch, t.x, t.y).Success? && Lookup(st.sketch, t.x, t.y).value != t.colour)
            && (|r.painted| > |st.painted| ==> r.painted == st.painted + [t])
            && (|r.painted| > |st.painted| && script.paint(|st.painted|).None? ==>
                  r.fetches == st.fetches + 1
                  && (script.fetch(st.fetches).Success? ==> r.sketch == script.fetch(st.fetches).value && r.failure.None?))
            && (|r.painted| == |st.painted| ==> r.fetches == st.fetches && r.sketch == st.sketch)
  {
  }

  /** A visit adds at most one paint call, at the visited target. */
  lemma VisitPaints(script: Script, t: Pixel, st: Progress)
    ensures var r := Visit(script, t, st);
            st.painted <= r.painted && (r.painted == st.painted || r.painted == st.painted + [t])
  {
  }

  /** A scan only ever adds to the paint calls, and every call it adds is
      one of the scanned targets. */
  lemma {:induction false} ScanPaintsTargets(script: Script, ts: seq<Pixel>, st: Progress)
    ensures var r := Scan(script, ts, st);
            && st.painted <= r.painted
            && forall i :: |st.painted| <= i < |r.painted| ==> r.painted[i] in ts
    decreases |ts|
  {
    if ts != [] {
      var front := ts[..|ts| - 1];
      var last := ts[|ts| - 1];
      ScanPaintsTargets(script, front, st);
      var mid := Scan(script, front, st);
      VisitPaints(script, last, mid);
      var r := Visit(script, last, mid);
      assert r == Scan(script, ts, st);
      forall i | |st.painted| <= i < |r.painted| ensures r.painted[i] in ts {
        if i < |mid.painted| {
          assert r.painted[i] == mid.painted[i];
          assert mid.painted[i] in front;
        } else {
          assert r.painted[i] == last;
        }
      }
    }
  }

  /** Without an error, a scan fetches once per paint call. */
  lemma {:induction false} ScanBalance(script: Script, ts: seq<Pixel>, st: Progress)
    requires Scan(script, ts, st).failure.None?
    ensures var r := Scan(script, ts, st);
            r.fetches - st.fetches == |r.painted| - |st.painted| >= 0
    decreases |ts|
  {
    if ts != [] {
      var front := ts[..|ts| - 1];
      assert Scan(script, ts, st) == Visit(script, ts[|ts| - 1], Scan(script, front, st));
      ScanBalance(script, front, st);
    }
  }

  /** Each job's pass fetches once at the start and once per paint, and
      paints only its own targets. */
  lemma {:induction false} JobPassCounts(script: Script, job: Job, st: Progress)
    requires st.failure.None? && JobPass(script, job, st).failure.None?
    ensures var r := JobPass(script, job, st);
            && r.fetches == st.fetches + 1 + (|r.painted| - |st.painted|)
            && st.painted <= r.painted
            && forall i :: |st.painted| <= i < |r.painted| ==> r.painted[i] in AllTargets(job)
  {
    var start := JobStart(script, st);
    if start.failure.Some? {
      ScanFailed(script, AllTargets(job), start);
      assert false;
    }
    ScanBalance(script, AllTargets(job), start);
    ScanPaintsTargets(script, AllTargets(job), start);
  }

  /** A snapshot that already shows every goal. */
  predicate Matches(sk: Sketch, ts: seq<Pixel>) {
    forall i :: 0 <= i < |ts| ==> Lookup(sk, ts[i].x, ts[i].y) == Success(ts[i].colour)
  }

  /** Scanning targets that all match changes nothing. */
  lemma {:induction false} ScanConverged(script: Script, ts: seq<Pixel>, st: Progress)
    requires st.failure.None? && Matches(st.sketch, ts)
    ensures Scan(script, ts, st) == st
    decreases |ts|
  {
    if ts != [] {
      ScanConverged(script, ts[..|ts| - 1], st);
      assert Lookup(st.sketch, ts[|ts| - 1].x, ts[|ts| - 1].y) == Success(ts[|ts| - 1].colour);
    }
  }

  /** When the canvas already shows the image, a job's pass makes no paint
      call and fetches the sketch once. */
  lemma JobPassConverged(script: Script, job: Job, st: Progress)
    requires st.failure.None? && script.fetch(st.fetches).Success?
    requires Matches(script.fetch(st.fetches).value, AllTargets(job))
    ensures JobPass(script, job, st) ==
            st.(fetches := st.fetches + 1, sketch := script.fetch(st.fetches).value)
  {
    ScanConverged(script, AllTargets(job), JobStart(script, st));
  }

  /** The `k`-th snapshot shows the job's image. */
  predicate Shows(script: Script, k: nat, job: Job) {
    script.fetch(k).Success? && Matches(script.fetch(k).value, AllTargets(job))
  }

  /** When the snapshot fetched for each job shows that job's image, a
      circuit paints nothing, raises nothing, and fetches once per job. */
  lemma {:induction false} CircuitConverged(script: Script, jobs: seq<Job>, st: Progress)
    requires st.failure.None?
    requires forall j :: 0 <= j < |jobs| ==> Shows(script, st.fetches + j, jobs[j])
    ensures var r := CircuitSpec(script, jobs, st);
            && r.failure.None? && r.painted == st.painted && r.fetches == st.fetches + |jobs|
    decreases |jobs|
  {
    if jobs != [] {
      var front := jobs[..|jobs| - 1];
      assert forall j :: 0 <= j < |front| ==> front[j] == jobs[j];
      CircuitConverged(script, front, st);
      var mid := CircuitSpec(script, front, st);
      assert Shows(script, st.fetches + (|jobs| - 1), jobs[|jobs| - 1]);
      JobPassConverged(script, jobs[|jobs| - 1], mid);
    }
  }

  /** A scan over `a + [t] + b` whose snapshot already shows `a`, shows `t`
      in another colour, and whose re-fetched snapshot shows `b`:
      exactly one paint call, at `t`, and one fetch. */
  lemma {:induction false} ScanSingleRepair(script: Script, a: seq<Pixel>, t: Pixel, b: seq<Pixel>, st: Progress)
    requires st.failure.None? && Matches(st.sketch, a)
    requires Lookup(st.sketch, t.x, t.y).Success? && Lookup(st.sketch, t.x, t.y).value != t.colour
    requires script.paint(|st.painted|).None? && script.fetch(st.fetches).Success?
    requires Matches(script.fetch(st.fetches).value, b)
    ensures Scan(script, a + [t] + b, st) ==
            Progress(script.fetch(st.fetches).value, st.fetches + 1, st.painted + [t], None)
  {
    var sk := script.fetch(st.fetches).value;
    ScanAppend(script, a + [t], b, st);
    ScanSnoc(script, a, t, st);
    ScanConverged(script, a, st);
    var mid := Visit(script, t, st);
    assert mid == Progress(sk, st.fetches + 1, st.painted + [t], None);
    ScanConverged(script, b, mid);
  }

  /** A job whose first snapshot shows the targets before `t` and shows `t`
      in another colour, and whose second snapshot shows the targets after
      `t` (nothing is assumed of the first snapshot beyond `t`): the
      pass paints `t` once, with its goal, and fetches twice. */
  lemma SingleRepair(script: Script, job: Job, a: seq<Pixel>, t: Pixel, b: seq<Pixel>, st: Progress)
    requires st.failure.None? && AllTargets(job) == a + [t] + b
    requires script.fetch(st.fetches).Success?
    requires Matches(script.fetch(st.fetches).value, a)
    requires Lookup(script.fetch(st.fetches).value, t.x, t.y).Success?
    requires Lookup(script.fetch(st.fetches).value, t.x, t.y).value != t.colour
    requires script.paint(|st.painted|).None? && script.fetch(st.fetches + 1).Success?
    requires Matches(script.fetch(st.fetches + 1).value, b)
    ensures JobPass(script, job, st) ==
            Progress(script.fetch(st.fetches + 1).value, st.fetches + 2, st.painted + [t], None)
  {
    var start := JobStart(script, st);
    assert start == st.(fetches := st.fetches + 1, sketch := script.fetch(st.fetches).value);
    ScanSingleRepair(script, a, t, b, start);
    assert JobPass(script, job, st) == Scan(script, a + [t] + b, start);
  }
}
