/** The `Sketch` snapshot of hnpixels/core.py: the canvas as row-major bytes,
    three per pixel, with `(x, y)` lookup. */
module Sketches {
  import opened Wrappers
  import opened Failures
  import opened Colours

  /** `content`, `width`, `height`; the source stores whatever it is given. */
  datatype Sketch = Sketch(content: seq<Byte>, width: int, height: int)

  /** What the canvas service delivers: three bytes for each of width * height pixels. */
  predicate WellFormed(sk: Sketch) {
    sk.width >= 0 && sk.height >= 0 && |sk.content| == sk.width * sk.height * 3
  }

  // ---------------------------------------------------------------------------
  // Python slicing

  /** How a slice bound `i` lands in a sequence of length `n`: a negative
      bound counts from the end, and the result is clamped to 0..n. */
  function Clamp(i: int, n: nat): (j: nat)
    ensures j <= n
    ensures 0 <= i <= n ==> j == i
    ensures -(n as int) <= i < 0 ==> j == i + n
  {
    if i < 0 then (if i + n < 0 then 0 else i + n)
    else if i > n then n
    else i
  }

  /** `s[start:stop]` with Python's rules: never an error, possibly short. */
  function Slice<T>(s: seq<T>, start: int, stop: int): (r: seq<T>)
    ensures |r| <= |s|
  {
    var a, b := Clamp(start, |s|), Clamp(stop, |s|);
    if a < b then s[a..b] else []
  }

  /** Bounds inside the sequence slice it as Dafny does; a negative start
      within one length of the end is the same as that start plus the length. */
  lemma SliceBounds<T>(s: seq<T>, start: int, stop: int)
    ensures 0 <= start <= stop <= |s| ==> Slice(s, start, stop) == s[start..stop]
    ensures -|s| <= start < 0 ==> Slice(s, start, stop) == Slice(s, start + |s|, stop)
    ensures |s| <= start ==> Slice(s, start, stop) == []
  {
  }

  // ---------------------------------------------------------------------------
  // Lookup

  /** A negative coordinate gets the extent added to it, once. */
  function Wrap(i: int, extent: int): int {
    if i < 0 then extent + i else i
  }

  /** `Sketch.__getitem__`: the three bytes at `(x + width * y) * 3`, after
      one wraparound of each negative coordinate; a slice that is not three
      bytes long makes `from_triple` raise ValueError. */
  function Lookup(sk: Sketch, x: int, y: int): (r: Result<Colour, Failure>)
    ensures r.Failure? ==> r.error == ValueError
    ensures r.Success? ==> IsByteColour(r.value)
  {
    var index := (Wrap(x, sk.width) + sk.width * Wrap(y, sk.height)) * 3;
    FromTriple(Slice(sk.content, index, index + 3))
  }

  /** The colour stored for pixel number `k` in row-major order. */
  function PixelAt(sk: Sketch, k: nat): Colour
    requires 3 * k + 3 <= |sk.content|
  {
    Colour(sk.content[3 * k], sk.content[3 * k + 1], sk.content[3 * k + 2])
  }

  lemma RowMajorBound(w: int, h: int, x: int, y: int)
    requires 0 <= x < w && 0 <= y < h
    ensures 0 <= x + w * y < w * h
  {
    assert w * y + w == w * (y + 1);
    assert w * (y + 1) <= w * h;
  }

  lemma RowMajorBeyond(w: int, h: int, x: int, y: int)
    requires 0 <= w && 0 <= h && 0 <= x && 0 <= y
    requires w * h <= x + w * y
    ensures (w * h) * 3 <= (x + w * y) * 3
  {
  }

  /** Inside the canvas, lookup reads pixel `x + width * y` of the row-major
      buffer. */
  lemma {:induction false} LookupInside(sk: Sketch, x: int, y: int)
    requires WellFormed(sk)
    requires 0 <= x < sk.width && 0 <= y < sk.height
    ensures 3 * (x + sk.width * y) + 3 <= |sk.content|
    ensures Lookup(sk, x, y) == Success(PixelAt(sk, x + sk.width * y))
  {
    var k := x + sk.width * y;
    RowMajorBound(sk.width, sk.height, x, y);
    assert k * 3 + 3 <= sk.width * sk.height * 3;
    SliceBounds(sk.content, k * 3, k * 3 + 3);
  }

  /** Within one wraparound of the canvas, lookup succeeds exactly when the
      wrapped coordinates fall before the end of the buffer. There is no check
      that `x < width`: an `x` past the row edge reads the next row. */
  lemma {:induction false} LookupDefined(sk: Sketch, x: int, y: int)
    requires WellFormed(sk)
    requires -sk.width <= x && -sk.height <= y
    ensures Lookup(sk, x, y).Success? <==>
              Wrap(x, sk.width) + sk.width * Wrap(y, sk.height) < sk.width * sk.height
  {
    var w, h := sk.width, sk.height;
    var k := Wrap(x, w) + w * Wrap(y, h);
    assert 0 <= k;
    SliceBounds(sk.content, k * 3, k * 3 + 3);
    if k < w * h {
      assert k * 3 + 3 <= w * h * 3;
    } else {
      RowMajorBeyond(w, h, Wrap(x, w), Wrap(y, h));
    }
  }

  /** Each negative coordinate, whatever the other one is, names the same
      pixel as the coordinate one canvas-extent further on, so
      `sketch[-1, 0] == sketch[width-1, 0]` and
      `sketch[-1, -1] == sketch[width-1, height-1]`. */
  lemma WrapOnce(sk: Sketch, x: int, y: int)
    requires -sk.width <= x && -sk.height <= y
    ensures Lookup(sk, x, y) == Lookup(sk, Wrap(x, sk.width), Wrap(y, sk.height))
    ensures x < 0 ==> Lookup(sk, x, y) == Lookup(sk, x + sk.width, y)
    ensures y < 0 ==> Lookup(sk, x, y) == Lookup(sk, x, y + sk.height)
    ensures x < 0 && y < 0 ==> Lookup(sk, x, y) == Lookup(sk, x + sk.width, y + sk.height)
  {
  }

  /** Walking off the right edge of a row lands at the start of the next row. */
  lemma {:induction false} RowOverflow(sk: Sketch, x: int, y: int)
    requires sk.width >= 0 && 0 <= x && 0 <= y
    ensures Lookup(sk, x + sk.width, y) == Lookup(sk, x, y + 1)
  {
    assert (x + sk.width) + sk.width * y == x + sk.width * (y + 1);
  }

  /** Only one wraparound is supported: on the top row of a 2x2 canvas,
      `x = -3` leaves the index at -3 and the Python slice `content[-3:0]` is
      empty. */
  lemma SecondWrapRefused()
    ensures Lookup(Sketch([0, 0, 0, 1, 1, 1, 2, 2, 2, 3, 3, 3], 2, 2), -3, 0) == Failure(ValueError)
  {
  }

  /** A coordinate between `-2 * width` and `-width` is wrapped only once, so
      below the top row it lands on the row above. */
  lemma SecondWrapPreviousRow(sk: Sketch, x: int, y: int)
    requires -2 * sk.width <= x < -sk.width && y >= 1
    ensures Lookup(sk, x, y) == Lookup(sk, x + 2 * sk.width, y - 1)
  {
    assert (x + sk.width) + sk.width * y == (x + 2 * sk.width) + sk.width * (y - 1);
  }

  /** The row-major layout on a 2x2 canvas whose pixel k holds bytes (k, k, k). */
  lemma TwoByTwo()
    ensures var sk := Sketch([0, 0, 0, 1, 1, 1, 2, 2, 2, 3, 3, 3], 2, 2);
            && Lookup(sk, 0, 0) == Success(Colour(0, 0, 0))
            && Lookup(sk, 1, 0) == Success(Colour(1, 1, 1))
            && Lookup(sk, 0, 1) == Success(Colour(2, 2, 2))
            && Lookup(sk, -1, -1) == Success(Colour(3, 3, 3))
  {
  }
}
