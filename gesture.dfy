// The pure decisions of the gesture recognizer (`touchStart`, `touchMove`, `touchEnd`)
// and the cube-mode guard of `translate`, stated over integers. The source compares
// against `slideWidth / 3` and `screen.width / 3` in floating point; for integer
// pixel values `|dx| > w / 3` holds exactly when `3 * |dx| > w`, which the
// `...MatchesRealThreshold` lemmas prove.
module Gesture {
  import opened Common

  /** Height in pixels of the header and footer bands where a touch is not a drag. */
  const BandHeight: int := 80
  /** A drag released within this many milliseconds counts as a flick. */
  const FlickMs: int := 300
  /** ... provided it moved more than this many pixels horizontally. */
  const FlickDistance: int := 25

  /** `pageY < 80 || pageY > slideHeight - 80`. */
  predicate InReservedBand(pageY: int, slideHeight: int)
  {
    pageY < BandHeight || pageY > slideHeight - BandHeight
  }

  /** The closure variable `delta`: `undefined` before the first touch, `{}` after a
      touch start, `{x, y}` after a move. */
  datatype Delta = Unset | Blank | Moved(dx: int, dy: int)

  /** The sticky classification made at the first move: vertical intent means scrolling. */
  predicate IsScroll(dx: int, dy: int)
  {
    Abs(dx) < Abs(dy)
  }

  /** `isValid` of `touchEnd`: a flick (short and over 25px) or a drag over a third of the
      slide width. `elapsed` is None when `touchOffset` was undefined (`Number(undefined)`
      is NaN), and an empty delta compares as NaN, so it never commits. */
  predicate IsCommit(elapsed: Option<int>, delta: Delta, slideWidth: int)
  {
    match delta
    case Moved(dx, _) =>
      (elapsed.Some? && elapsed.value < FlickMs && Abs(dx) > FlickDistance) || 3 * Abs(dx) > slideWidth
    case _ => false
  }

  /** `direction = delta.x < 0`: dragging to the left goes to the next story. */
  predicate DragForward(delta: Delta)
  {
    delta.Moved? && delta.dx < 0
  }

  /** A tap navigates forward when it lands right of the first third of the screen, or
      always when the `previousTap` option is off. */
  predicate TapForward(x: int, screenWidth: int, previousTap: bool)
  {
    3 * x > screenWidth || !previousTap
  }

  /** The cube guard of `translate`: the rotation `|to| / width * 90 * sign(to)` leaves
      [-90, 90] exactly when `|to| > width`. For a zero width the source divides by
      zero: any `to != 0` gives an infinite angle (aborts) and `to == 0` gives NaN (does
      not), which is again `|to| > width`. */
  predicate CubeAborts(to: int, width: nat)
  {
    Abs(to) > width
  }

  /** The cube-mode angle in degrees, `Math.abs(to) / width * 90 * direction` with
      `direction = to > 0 ? 1 : -1`. */
  function CubeAngle(to: int, width: nat): real
    requires width > 0
  {
    (Abs(to) as real) / (width as real) * 90.0 * (if to > 0 then 1.0 else -1.0)
  }

  /** The integer commit test is the release test of `touchEnd` on real numbers: a
      40 px drag released after 200 ms commits, one released after 500 ms on a 300 px
      slide does not, and a 150 px drag on that slide commits whatever the time. */
  lemma CommitMatchesRealThreshold(elapsed: int, dx: int, dy: int, slideWidth: nat)
    ensures IsCommit(Some(elapsed), Moved(dx, dy), slideWidth) <==>
            (elapsed < 300 && Abs(dx) > 25) || (Abs(dx) as real) > (slideWidth as real) / 3.0
  {
  }

  lemma TapMatchesRealThreshold(x: int, screenWidth: nat, previousTap: bool)
    ensures TapForward(x, screenWidth, previousTap) <==> (x as real) > (screenWidth as real) / 3.0 || !previousTap
  {
  }

  /** The angle formula and the integer guard agree on every offset. */
  lemma CubeAbortsIffAngleOutOfRange(to: int, width: nat)
    requires width > 0
    ensures CubeAborts(to, width) <==> CubeAngle(to, width) < -90.0 || CubeAngle(to, width) > 90.0
  {
    var a, w := Abs(to) as real, width as real;
    var q := a / w;
    QuotientAboveOne(a, w);
    assert CubeAngle(to, width) == q * 90.0 * (if to > 0 then 1.0 else -1.0);
  }

  /** A quotient by a positive number exceeds one exactly when the dividend exceeds
      the divisor. */
  lemma QuotientAboveOne(a: real, w: real)
    requires w > 0.0
    ensures a / w > 1.0 <==> a > w
  {
    var q := a / w;
    assert q * w == a;
    if q > 1.0 {
      assert q * w > 1.0 * w;
    } else {
      assert q * w <= 1.0 * w;
    }
  }

  /** An offset of one full width is a quarter turn, in either direction. */
  lemma FullWidthIsQuarterTurn(width: nat)
    requires width > 0
    ensures CubeAngle(width, width) == 90.0
    ensures CubeAngle(-(width as int), width) == -90.0
    ensures !CubeAborts(width, width) && !CubeAborts(-(width as int), width)
  {
    var w := width as real;
    assert w / w == 1.0;
  }
}
